/** Taking one response apart: which subscription gets which payload, which error, and what concerns none of them. */
module Routing {
  import opened Options
  import opened Json
  import opened Combiner

  datatype PathSegment = Field(name: string) | Index(index: nat)

  datatype GraphQlError = GraphQlError(path: Option<seq<PathSegment>>, message: string)

  /** What one frame carries. A missing and a null `data` or `errors` are the same. */
  datatype Frame = NotJson | Response(data: Option<Json>, errors: Option<seq<GraphQlError>>)

  datatype Routed = Routed(
    payloads: map<SlotId, Json>,
    slotErrors: map<SlotId, seq<GraphQlError>>,
    documentErrors: seq<GraphQlError>)

  // ----- What a response says to one subscription -----

  /** The alias at which an error occurred. */
  function AliasOf(error: GraphQlError): Option<string> {
    if error.path.Some? && |error.path.value| > 0 && error.path.value[0].Field? then Some(error.path.value[0].name)
    else None
  }

  /** The errors that occurred at an alias, in order. */
  function ErrorsAt(errors: seq<GraphQlError>, alias: string): seq<GraphQlError> {
    if |errors| == 0 then []
    else
      var rest := ErrorsAt(errors[..|errors| - 1], alias);
      var last := errors[|errors| - 1];
      if AliasOf(last) == Some(alias) then rest + [last] else rest
  }

  predicate IsDocumentError(error: GraphQlError, targets: map<string, Target>) {
    AliasOf(error).None? || AliasOf(error).value !in targets
  }

  /** The errors that occurred at no known alias, in order. */
  function DocumentErrors(errors: seq<GraphQlError>, targets: map<string, Target>): seq<GraphQlError> {
    if |errors| == 0 then []
    else
      var rest := DocumentErrors(errors[..|errors| - 1], targets);
      var last := errors[|errors| - 1];
      if IsDocumentError(last, targets) then rest + [last] else rest
  }

  datatype Outcome = Nothing | Payload(value: Json) | Refusal(errors: seq<GraphQlError>)

  /**
   What a response says to the owner of an alias: only its own member and its own errors matter. Data wins over errors,
   and errors win over a null.
   */
  function OutcomeAt(members: map<string, Json>, errors: seq<GraphQlError>, alias: string, field: string): Outcome {
    var own := ErrorsAt(errors, alias);
    if alias in members && (!members[alias].Null? || |own| == 0) then Payload(Object(map[field := members[alias]]))
    else if |own| > 0 then Refusal(own)
    else Nothing
  }

  /** The members of a response's data, unless the data is of the wrong kind. */
  function MembersOf(data: Option<Json>): Option<map<string, Json>> {
    match data
    case None => Some(map[])
    case Some(Object(members)) => Some(members)
    case Some(_) => None
  }

  function ErrorsOf(errors: Option<seq<GraphQlError>>): seq<GraphQlError> {
    if errors.Some? then errors.value else []
  }

  /** A frame that carries neither data nor errors is as broken as one that does not parse. */
  predicate IsBroken(frame: Frame) {
    || frame.NotJson?
    || MembersOf(frame.data).None?
    || (|MembersOf(frame.data).value| == 0 && |ErrorsOf(frame.errors)| == 0)
  }

  function OutcomeOf(frame: Frame, alias: string, field: string): Outcome
    requires !IsBroken(frame)
  {
    OutcomeAt(MembersOf(frame.data).value, ErrorsOf(frame.errors), alias, field)
  }

  /** Every alias belongs to a slot of its own. */
  ghost predicate OneAliasEach(targets: map<string, Target>) {
    forall a, b :: a in targets && b in targets && targets[a].id == targets[b].id ==> a == b
  }

  /** The owner of an alias is routed what the outcome says. */
  ghost predicate RoutesTo(r: Routed, id: SlotId, outcome: Outcome) {
    && (if outcome.Payload? then id in r.payloads && r.payloads[id] == outcome.value else id !in r.payloads)
    && (if outcome.Refusal? then id in r.slotErrors && r.slotErrors[id] == outcome.errors else id !in r.slotErrors)
  }

  ghost predicate OnlyTargets(ids: set<SlotId>, targets: map<string, Target>) {
    forall id :: id in ids ==> exists alias :: alias in targets && targets[alias].id == id
  }

  // ----- Taking a response apart -----

  /** What is known of the errors once the first `n` are sorted. */
  ghost predicate Sorted(errors: seq<GraphQlError>, n: nat, targets: map<string, Target>,
                         slotErrors: map<SlotId, seq<GraphQlError>>, documentErrors: seq<GraphQlError>)
    requires n <= |errors|
  {
    && documentErrors == DocumentErrors(errors[..n], targets)
    && OnlyTargets(slotErrors.Keys, targets)
    && forall alias :: alias in targets ==>
         && (targets[alias].id in slotErrors <==> |ErrorsAt(errors[..n], alias)| > 0)
         && (targets[alias].id in slotErrors ==> slotErrors[targets[alias].id] == ErrorsAt(errors[..n], alias))
  }

  lemma ErrorsNext(errors: seq<GraphQlError>, n: nat, targets: map<string, Target>, alias: string)
    requires n < |errors|
    ensures ErrorsAt(errors[..n + 1], alias)
         == ErrorsAt(errors[..n], alias) + (if AliasOf(errors[n]) == Some(alias) then [errors[n]] else [])
    ensures DocumentErrors(errors[..n + 1], targets)
         == DocumentErrors(errors[..n], targets) + (if IsDocumentError(errors[n], targets) then [errors[n]] else [])
  {
    assert errors[..n + 1][..n] == errors[..n];
  }

  /** The slot's errors with one more. */
  function WithError(slotErrors: map<SlotId, seq<GraphQlError>>, id: SlotId, error: GraphQlError)
    : map<SlotId, seq<GraphQlError>>
  {
    slotErrors[id := (if id in slotErrors then slotErrors[id] else []) + [error]]
  }

  lemma SortedNext(errors: seq<GraphQlError>, n: nat, targets: map<string, Target>,
                   slotErrors: map<SlotId, seq<GraphQlError>>, documentErrors: seq<GraphQlError>)
    requires n < |errors| && OneAliasEach(targets) && Sorted(errors, n, targets, slotErrors, documentErrors)
    ensures if IsDocumentError(errors[n], targets) then
              Sorted(errors, n + 1, targets, slotErrors, documentErrors + [errors[n]])
            else
              Sorted(errors, n + 1, targets,
                     WithError(slotErrors, targets[AliasOf(errors[n]).value].id, errors[n]), documentErrors)
  {
    hide AliasOf;
    ErrorsNext(errors, n, targets, "");
    forall alias | alias in targets
      ensures ErrorsAt(errors[..n + 1], alias)
           == ErrorsAt(errors[..n], alias) + (if AliasOf(errors[n]) == Some(alias) then [errors[n]] else [])
    {
      ErrorsNext(errors, n, targets, alias);
    }
    hide ErrorsAt;
    hide DocumentErrors;
  }

  method SortErrors(errors: seq<GraphQlError>, targets: map<string, Target>)
    returns (slotErrors: map<SlotId, seq<GraphQlError>>, documentErrors: seq<GraphQlError>)
    requires OneAliasEach(targets)
    ensures Sorted(errors, |errors|, targets, slotErrors, documentErrors)
  {
    hide OneAliasEach;
    slotErrors, documentErrors := map[], [];
    NothingSorted(errors, targets);
    hide Sorted;
    for n := 0 to |errors|
      invariant Sorted(errors, n, targets, slotErrors, documentErrors)
    {
      SortedNext(errors, n, targets, slotErrors, documentErrors);
      var error := errors[n];
      var alias := AliasOf(error);
      if alias.Some? && alias.value in targets {
        slotErrors := WithError(slotErrors, targets[alias.value].id, error);
      } else {
        documentErrors := documentErrors + [error];
      }
    }
  }

  lemma NothingSorted(errors: seq<GraphQlError>, targets: map<string, Target>)
    ensures Sorted(errors, 0, targets, map[], [])
  {}

  /** What is known of the outcomes while the members in `todo` are not routed yet. */
  ghost predicate RoutedSoFar(members: map<string, Json>, errors: seq<GraphQlError>, targets: map<string, Target>,
                              todo: set<string>, r: Routed)
  {
    && OnlyTargets(r.payloads.Keys, targets) && OnlyTargets(r.slotErrors.Keys, targets)
    && forall alias :: alias in targets ==> RoutedAt(members, errors, targets[alias], todo, r, alias)
  }

  ghost predicate RoutedAt(members: map<string, Json>, errors: seq<GraphQlError>, target: Target, todo: set<string>,
                           r: Routed, alias: string)
  {
    if alias in todo then
      && target.id !in r.payloads
      && (target.id in r.slotErrors <==> |ErrorsAt(errors, alias)| > 0)
      && (target.id in r.slotErrors ==> r.slotErrors[target.id] == ErrorsAt(errors, alias))
    else RoutesTo(r, target.id, OutcomeAt(members, errors, alias, target.field))
  }

  lemma NothingRouted(members: map<string, Json>, errors: seq<GraphQlError>, targets: map<string, Target>,
                      slotErrors: map<SlotId, seq<GraphQlError>>, documentErrors: seq<GraphQlError>)
    requires Sorted(errors, |errors|, targets, slotErrors, documentErrors)
    ensures RoutedSoFar(members, errors, targets, members.Keys, Routed(map[], slotErrors, documentErrors))
    ensures documentErrors == DocumentErrors(errors, targets)
  {
    assert errors[..|errors|] == errors;
    hide ErrorsAt;
    hide DocumentErrors;
  }

  /** What routing one member makes of the outcomes. */
  function RouteMember(r: Routed, target: Target, payload: Json): Routed {
    if payload.Null? && target.id in r.slotErrors then r
    else r.(payloads := r.payloads[target.id := Object(map[target.field := payload])],
            slotErrors := r.slotErrors - {target.id})
  }

  lemma RoutedOwn(members: map<string, Json>, errors: seq<GraphQlError>, targets: map<string, Target>,
                  todo: set<string>, r: Routed, alias: string)
    requires alias in targets && alias in members && alias in todo
    requires RoutedAt(members, errors, targets[alias], todo, r, alias)
    ensures RoutedAt(members, errors, targets[alias], todo - {alias},
                     RouteMember(r, targets[alias], members[alias]), alias)
  {
    hide ErrorsAt;
  }

  lemma RoutedOther(members: map<string, Json>, errors: seq<GraphQlError>, target: Target, todo: set<string>, r: Routed,
                    alias: string, other: Target, otherAlias: string, payload: Json)
    requires RoutedAt(members, errors, target, todo, r, alias) && target.id != other.id && alias != otherAlias
    ensures RoutedAt(members, errors, target, todo - {otherAlias}, RouteMember(r, other, payload), alias)
  {
    hide ErrorsAt;
    hide OutcomeAt;
  }

  lemma RoutedNext(members: map<string, Json>, errors: seq<GraphQlError>, targets: map<string, Target>,
                   todo: set<string>, r: Routed, alias: string)
    requires RoutedSoFar(members, errors, targets, todo, r) && OneAliasEach(targets)
    requires alias in todo && alias in members
    ensures RoutedSoFar(members, errors, targets, todo - {alias},
                        if alias in targets then RouteMember(r, targets[alias], members[alias]) else r)
  {
    var r' := if alias in targets then RouteMember(r, targets[alias], members[alias]) else r;
    forall a | a in targets
      ensures RoutedAt(members, errors, targets[a], todo - {alias}, r', a)
    {
      assert RoutedAt(members, errors, targets[a], todo, r, a);
      if a == alias {
        RoutedOwn(members, errors, targets, todo, r, a);
      } else if alias in targets {
        RoutedOther(members, errors, targets[a], todo, r, a, targets[alias], alias, members[alias]);
      }
    }
    OnlyTargetsNext(targets, r, alias, if alias in members then members[alias] else Null);
    hide RoutedAt;
    hide OnlyTargets;
    hide OneAliasEach;
  }

  lemma OnlyTargetsNext(targets: map<string, Target>, r: Routed, alias: string, payload: Json)
    requires OnlyTargets(r.payloads.Keys, targets) && OnlyTargets(r.slotErrors.Keys, targets)
    ensures alias in targets ==>
              OnlyTargets(RouteMember(r, targets[alias], payload).payloads.Keys, targets)
              && OnlyTargets(RouteMember(r, targets[alias], payload).slotErrors.Keys, targets)
  {}

  /** A response is routed when every owner gets its outcome and the document errors are what is left. */
  ghost predicate IsRouted(frame: Frame, targets: map<string, Target>, r: Routed)
    requires !IsBroken(frame)
  {
    && r.documentErrors == DocumentErrors(ErrorsOf(frame.errors), targets)
    && OnlyTargets(r.payloads.Keys, targets) && OnlyTargets(r.slotErrors.Keys, targets)
    && forall alias :: alias in targets ==>
         RoutesTo(r, targets[alias].id, OutcomeOf(frame, alias, targets[alias].field))
  }

  lemma AllRouted(frame: Frame, targets: map<string, Target>, r: Routed)
    requires !IsBroken(frame) && r.documentErrors == DocumentErrors(ErrorsOf(frame.errors), targets)
    requires RoutedSoFar(MembersOf(frame.data).value, ErrorsOf(frame.errors), targets, {}, r)
    ensures IsRouted(frame, targets, r)
  {
    hide DocumentErrors;
    hide OutcomeAt;
    hide RoutesTo;
    forall alias | alias in targets
      ensures RoutesTo(r, targets[alias].id, OutcomeOf(frame, alias, targets[alias].field))
    {
      assert RoutedAt(MembersOf(frame.data).value, ErrorsOf(frame.errors), targets[alias], {}, r, alias);
    }
  }

  /**
   Splits a response into per-subscription payloads and errors: every owner of an alias gets exactly what the response
   says to it, and the errors of no alias are the document's.
   */
  method Route(frame: Frame, targets: map<string, Target>) returns (r: Option<Routed>)
    requires frame.Response? && OneAliasEach(targets)
    ensures r.None? <==> IsBroken(frame)
    ensures r.Some? ==> IsRouted(frame, targets, r.value)
  {
    var members := map[];
    if frame.data.Some? {
      if !frame.data.value.Object? {
        return None;
      }
      members := frame.data.value.members;
    }
    var errors := ErrorsOf(frame.errors);
    if |members| == 0 && |errors| == 0 {
      return None;
    }
    var slotErrors, documentErrors := SortErrors(errors, targets);
    NothingRouted(members, errors, targets, slotErrors, documentErrors);
    var routed := RouteMembers(members, errors, targets, slotErrors, documentErrors);
    AllRouted(frame, targets, routed);
    return Some(routed);
  }

  method RouteMembers(members: map<string, Json>, ghost errors: seq<GraphQlError>, targets: map<string, Target>,
                      slotErrors: map<SlotId, seq<GraphQlError>>, documentErrors: seq<GraphQlError>)
    returns (routed: Routed)
    requires OneAliasEach(targets)
    requires RoutedSoFar(members, errors, targets, members.Keys, Routed(map[], slotErrors, documentErrors))
    ensures RoutedSoFar(members, errors, targets, {}, routed)
    ensures routed.documentErrors == documentErrors
  {
    hide RoutedSoFar;
    hide OneAliasEach;
    routed := Routed(map[], slotErrors, documentErrors);
    var todo := members.Keys;
    while todo != {}
      invariant todo <= members.Keys
      invariant RoutedSoFar(members, errors, targets, todo, routed)
      invariant routed.documentErrors == documentErrors
      decreases |todo|
    {
      var alias :| alias in todo;
      RoutedNext(members, errors, targets, todo, routed, alias);
      if alias in targets {
        var target, payload := targets[alias], members[alias];
        if !(payload.Null? && target.id in routed.slotErrors) {
          routed := routed.(slotErrors := routed.slotErrors - {target.id},
                            payloads := routed.payloads[target.id := Object(map[target.field := payload])]);
        }
      }
      todo := todo - {alias};
    }
  }

  // ----- What routing means -----

  /** The error occurred at an alias or somewhere below it. */
  ghost predicate StartsAt(error: GraphQlError, alias: string) {
    exists below: seq<PathSegment> :: error.path == Some([Field(alias)] + below)
  }

  ghost predicate StartsNowhere(error: GraphQlError, targets: map<string, Target>) {
    forall alias :: alias in targets ==> !StartsAt(error, alias)
  }

  lemma AliasMeans(error: GraphQlError, alias: string)
    ensures AliasOf(error) == Some(alias) <==> StartsAt(error, alias)
  {
    if AliasOf(error) == Some(alias) {
      assert error.path.value == [Field(alias)] + error.path.value[1..];
    }
  }

  lemma NoAliasMeans(error: GraphQlError, targets: map<string, Target>)
    ensures IsDocumentError(error, targets) <==> StartsNowhere(error, targets)
  {
    if AliasOf(error).Some? {
      AliasMeans(error, AliasOf(error).value);
    }
    forall alias | alias in targets
      ensures AliasOf(error) == Some(alias) <==> StartsAt(error, alias)
    {
      AliasMeans(error, alias);
    }
    hide StartsAt;
    hide AliasOf;
  }

  /** `picked` are the errors at the positions `at`, in the same order. */
  ghost predicate Picks(errors: seq<GraphQlError>, picked: seq<GraphQlError>, at: seq<nat>) {
    && |picked| == |at|
    && (forall k :: 0 <= k < |at| ==> at[k] < |errors| && picked[k] == errors[at[k]])
    && (forall k, l :: 0 <= k < l < |at| ==> at[k] < at[l])
  }

  lemma PicksMore(errors: seq<GraphQlError>, picked: seq<GraphQlError>, at: seq<nat>)
    requires |errors| > 0 && Picks(errors[..|errors| - 1], picked, at)
    ensures Picks(errors, picked, at)
    ensures Picks(errors, picked + [errors[|errors| - 1]], at + [|errors| - 1])
  {}

  /** The errors of an alias are all that start at it, in their order. */
  lemma {:induction false} ErrorsAtMeans(errors: seq<GraphQlError>, alias: string) returns (at: seq<nat>)
    ensures Picks(errors, ErrorsAt(errors, alias), at)
    ensures forall i: nat :: i in at <==> i < |errors| && StartsAt(errors[i], alias)
  {
    if |errors| == 0 {
      at := [];
    } else {
      var n := |errors| - 1;
      at := ErrorsAtMeans(errors[..n], alias);
      AliasMeans(errors[n], alias);
      hide StartsAt;
      hide AliasOf;
      PicksMore(errors, ErrorsAt(errors[..n], alias), at);
      if AliasOf(errors[n]) == Some(alias) {
        at := at + [n];
      }
    }
  }

  /** The errors of the document are all that start at no known alias, in their order. */
  lemma {:induction false} DocumentErrorsMean(errors: seq<GraphQlError>, targets: map<string, Target>)
      returns (at: seq<nat>)
    ensures Picks(errors, DocumentErrors(errors, targets), at)
    ensures forall i: nat :: i in at <==> i < |errors| && StartsNowhere(errors[i], targets)
  {
    if |errors| == 0 {
      at := [];
    } else {
      var n := |errors| - 1;
      at := DocumentErrorsMean(errors[..n], targets);
      NoAliasMeans(errors[n], targets);
      hide StartsNowhere;
      hide IsDocumentError;
      PicksMore(errors, DocumentErrors(errors[..n], targets), at);
      if IsDocumentError(errors[n], targets) {
        at := at + [n];
      }
    }
  }

  lemma PicksExactly(errors: seq<GraphQlError>, picked: seq<GraphQlError>, at: seq<nat>)
    requires Picks(errors, picked, at)
    ensures forall error :: error in picked <==> exists k :: 0 <= k < |at| && errors[at[k]] == error
  {
    forall error | error in picked
      ensures exists k :: 0 <= k < |at| && errors[at[k]] == error
    {
      var k :| 0 <= k < |picked| && picked[k] == error;
      assert errors[at[k]] == error;
    }
  }

  lemma ErrorIsAt(errors: seq<GraphQlError>, alias: string, error: GraphQlError)
    ensures error in ErrorsAt(errors, alias) <==> error in errors && StartsAt(error, alias)
  {
    var at := ErrorsAtMeans(errors, alias);
    hide ErrorsAt;
    hide StartsAt;
    PicksExactly(errors, ErrorsAt(errors, alias), at);
    if error in ErrorsAt(errors, alias) {
      var k :| 0 <= k < |at| && errors[at[k]] == error;
      assert at[k] in at;
    }
    if error in errors && StartsAt(error, alias) {
      var i: nat :| i < |errors| && errors[i] == error;
      var k :| 0 <= k < |at| && at[k] == i;
      assert errors[at[k]] == error;
    }
  }

  lemma ErrorIsNowhere(errors: seq<GraphQlError>, targets: map<string, Target>, error: GraphQlError)
    ensures error in DocumentErrors(errors, targets) <==> error in errors && StartsNowhere(error, targets)
  {
    var at := DocumentErrorsMean(errors, targets);
    hide DocumentErrors;
    hide StartsNowhere;
    PicksExactly(errors, DocumentErrors(errors, targets), at);
    if error in DocumentErrors(errors, targets) {
      var k :| 0 <= k < |at| && errors[at[k]] == error;
      assert at[k] in at;
    }
    if error in errors && StartsNowhere(error, targets) {
      var i: nat :| i < |errors| && errors[i] == error;
      var k :| 0 <= k < |at| && at[k] == i;
      assert errors[at[k]] == error;
    }
  }

  /** Some data other than null came for the alias. */
  predicate HasData(members: map<string, Json>, alias: string) {
    alias in members && !members[alias].Null?
  }

  ghost predicate HasErrors(errors: seq<GraphQlError>, alias: string) {
    exists error :: error in errors && StartsAt(error, alias)
  }

  /** The owner of an alias gets its data if there are any, else its errors if there are any, else its null. */
  ghost predicate GetsItsShare(members: map<string, Json>, errors: seq<GraphQlError>, alias: string, target: Target,
                               r: Routed)
  {
    && (target.id in r.payloads <==> HasData(members, alias) || (alias in members && !HasErrors(errors, alias)))
    && (target.id in r.payloads ==>
          alias in members && r.payloads[target.id] == Object(map[target.field := members[alias]]))
    && (target.id in r.slotErrors <==> !HasData(members, alias) && HasErrors(errors, alias))
    && (target.id in r.slotErrors ==>
          exists at ::
            && Picks(errors, r.slotErrors[target.id], at)
            && forall i: nat :: i in at <==> i < |errors| && StartsAt(errors[i], alias))
  }

  /**
   What routing a response comes to, in terms of the paths of its errors: every owner gets its share, and the document
   gets the errors that start at no known alias.
   */
  lemma RoutedMeans(frame: Frame, targets: map<string, Target>, r: Routed)
    requires !IsBroken(frame) && IsRouted(frame, targets, r)
    ensures forall alias :: alias in targets ==>
              GetsItsShare(MembersOf(frame.data).value, ErrorsOf(frame.errors), alias, targets[alias], r)
    ensures exists at ::
              && Picks(ErrorsOf(frame.errors), r.documentErrors, at)
              && forall i: nat :: i in at
                             <==> i < |ErrorsOf(frame.errors)| && StartsNowhere(ErrorsOf(frame.errors)[i], targets)
  {
    var members, errors := MembersOf(frame.data).value, ErrorsOf(frame.errors);
    var at := DocumentErrorsMean(errors, targets);
    forall alias | alias in targets
      ensures GetsItsShare(members, errors, alias, targets[alias], r)
    {
      assert RoutesTo(r, targets[alias].id, OutcomeAt(members, errors, alias, targets[alias].field));
      ShareMeans(members, errors, alias, targets[alias], r);
    }
  }

  lemma SomeErrorsAt(errors: seq<GraphQlError>, alias: string)
    ensures |ErrorsAt(errors, alias)| > 0 <==> HasErrors(errors, alias)
  {
    var own := ErrorsAt(errors, alias);
    if |own| > 0 {
      ErrorIsAt(errors, alias, own[0]);
    }
    hide StartsAt;
    if error :| error in errors && StartsAt(error, alias) {
      ErrorIsAt(errors, alias, error);
    }
  }

  lemma ShareMeans(members: map<string, Json>, errors: seq<GraphQlError>, alias: string, target: Target, r: Routed)
    requires RoutesTo(r, target.id, OutcomeAt(members, errors, alias, target.field))
    ensures GetsItsShare(members, errors, alias, target, r)
  {
    SomeErrorsAt(errors, alias);
    var at := ErrorsAtMeans(errors, alias);
    hide HasErrors;
    hide StartsAt;
    hide ErrorsAt;
    hide Picks;
  }

  /** Where one error of a response goes, by its path. */
  lemma ErrorGoesByItsPath(frame: Frame, targets: map<string, Target>, r: Routed, error: GraphQlError)
    requires !IsBroken(frame) && IsRouted(frame, targets, r) && error in ErrorsOf(frame.errors)
    ensures var path := if error.path.Some? then error.path.value else [];
            if |path| == 0 || path[0].Index? || path[0].name !in targets then error in r.documentErrors
            else var alias := path[0].name;
              && error !in r.documentErrors
              && if HasData(MembersOf(frame.data).value, alias) then targets[alias].id !in r.slotErrors
                 else targets[alias].id in r.slotErrors && error in r.slotErrors[targets[alias].id]
  {
    var members, errors := MembersOf(frame.data).value, ErrorsOf(frame.errors);
    ErrorIsNowhere(errors, targets, error);
    if error.path.Some? && |error.path.value| > 0 && error.path.value[0].Field? && error.path.value[0].name in targets {
      var alias := error.path.value[0].name;
      assert error.path.value == [Field(alias)] + error.path.value[1..];
      assert StartsAt(error, alias);
      ErrorIsAt(errors, alias, error);
      assert RoutesTo(r, targets[alias].id, OutcomeAt(members, errors, alias, targets[alias].field));
    }
    hide ErrorsAt;
    hide DocumentErrors;
  }

  /** A frame is whole if its data are an object or missing, and it carries a member or an error. */
  lemma WholeMeans(frame: Frame)
    ensures !IsBroken(frame)
       <==> && frame.Response?
            && (frame.data.None? || frame.data.value.Object?)
            && ((exists alias :: frame.data.Some? && alias in frame.data.value.members)
                || (exists error :: frame.errors.Some? && error in frame.errors.value))
  {
    if frame.Response? && frame.errors.Some? && |frame.errors.value| > 0 {
      assert frame.errors.value[0] in frame.errors.value;
    }
    if frame.Response? && frame.data.Some? && frame.data.value.Object? && |frame.data.value.members| > 0 {
      assert frame.data.value.members.Keys != {};
      var alias :| alias in frame.data.value.members.Keys;
    }
  }

  /** The aliases of an assembled connection are told apart. */
  lemma AssembledAliasesDiffer(parts: seq<Part>, targets: map<string, Target>)
    requires IsTargets(parts, |parts|, targets)
    ensures OneAliasEach(targets)
  {
    hide Alias;
    forall a, b | a in targets && b in targets && targets[a].id == targets[b].id
      ensures a == b
    {
      var i :| 0 <= i < |parts| && a == Alias(parts[i].id);
      var j :| 0 <= j < |parts| && b == Alias(parts[j].id);
      assert HasTarget(parts[i], targets) && HasTarget(parts[j], targets);
    }
  }
}
