/**
 Assembling the documents of several subscriptions into one: every slot contributes its variable definitions and its
 root field, both with the slot's variables renamed and the root field behind the slot's alias.
 */
module Combiner {
  import opened Options
  import opened Tokens
  import opened Renaming
  import opened Documents
  import opened Json

  type SlotId = nat

  /** What a connection needs to know about a registered subscription. */
  datatype Slot = Slot(id: SlotId, document: string, variables: map<string, Json>, resumable: bool)

  /** A slot whose document is split into its variable definitions and its root field. */
  datatype Part = Part(id: SlotId, definitions: string, field: string, variables: map<string, Json>)

  datatype Target = Target(id: SlotId, field: string)

  /** One assembled request and the slots that own its aliases. */
  datatype Connection = Connection(document: string, variables: map<string, Json>, targets: map<string, Target>,
                                   resumable: bool)

  datatype BuildError = ParseError

  const OPERATION := "BlokliSubscriptions"

  // ----- Aliases -----

  function Digit(d: nat): char
    requires d < 10
  {
    "0123456789"[d]
  }

  function Decimal(n: nat): (digits: string)
    ensures |digits| > 0
  {
    if n < 10 then [Digit(n)] else Decimal(n / 10) + [Digit(n % 10)]
  }

  function Alias(id: SlotId): string {
    "s" + Decimal(id)
  }

  function VariableName(id: SlotId, name: string): string {
    Alias(id) + "_" + name
  }

  lemma {:induction false} DecimalIsDigits(n: nat)
    ensures forall i :: 0 <= i < |Decimal(n)| ==> '0' <= Decimal(n)[i] <= '9'
  {
    if n >= 10 {
      DecimalIsDigits(n / 10);
    }
  }

  lemma DigitInjective(a: nat, b: nat)
    requires a < 10 && b < 10 && Digit(a) == Digit(b)
    ensures a == b
  {}

  lemma SameEnds(a: string, c: char, b: string, d: char)
    requires a + [c] == b + [d]
    ensures a == b && c == d
  {
    assert a == (a + [c])[..|a|] && c == (a + [c])[|a|];
    assert b == (b + [d])[..|b|] && d == (b + [d])[|b|];
  }

  lemma {:induction false} DecimalInjective(a: nat, b: nat)
    requires Decimal(a) == Decimal(b)
    ensures a == b
  {
    var x, c := if a < 10 then "" else Decimal(a / 10), Digit(a % 10);
    var y, d := if b < 10 then "" else Decimal(b / 10), Digit(b % 10);
    assert Decimal(a) == x + [c] && Decimal(b) == y + [d];
    SameEnds(x, c, y, d);
    DigitInjective(a % 10, b % 10);
    if a >= 10 && b >= 10 {
      DecimalInjective(a / 10, b / 10);
    }
  }

  /** What a text of digits says in base ten. */
  function Reads(digits: string): int {
    if |digits| == 0 then 0
    else 10 * Reads(digits[..|digits| - 1]) + (digits[|digits| - 1] as int - '0' as int)
  }

  /** An id is written in base ten, without leading zeros. */
  lemma {:induction false} DecimalReads(n: nat)
    ensures Reads(Decimal(n)) == n
    ensures n > 0 ==> Decimal(n)[0] != '0'
  {
    var digits := Decimal(n);
    if n >= 10 {
      DecimalReads(n / 10);
      assert digits[..|digits| - 1] == Decimal(n / 10);
    } else {
      assert digits[..|digits| - 1] == "";
    }
  }

  lemma AliasIsName(id: SlotId)
    ensures IsName(Alias(id))
    ensures forall i :: 0 <= i < |Alias(id)| ==> Alias(id)[i] != '_'
  {
    DecimalIsDigits(id);
  }

  lemma UnderscoreDivides(a: string, x: string, b: string, y: string)
    requires forall i :: 0 <= i < |a| ==> a[i] != '_'
    requires forall i :: 0 <= i < |b| ==> b[i] != '_'
    requires a + "_" + x == b + "_" + y
    ensures a == b && x == y
  {
    var text := a + "_" + x;
    assert text[|a|] == '_' && text[|b|] == '_';
    assert |a| == |b|;
    assert text[..|a|] == a && text[..|b|] == b;
    assert text[|a| + 1..] == x && text[|b| + 1..] == y;
  }

  /** No variable of one slot is captured by another: the scoped name says which slot and which variable it is. */
  lemma VariableNameInjective(id: SlotId, name: string, other: SlotId, otherName: string)
    requires VariableName(id, name) == VariableName(other, otherName)
    ensures id == other && name == otherName
  {
    AliasIsName(id);
    AliasIsName(other);
    UnderscoreDivides(Alias(id), name, Alias(other), otherName);
    assert Alias(id)[1..] == Decimal(id) && Alias(other)[1..] == Decimal(other);
    DecimalInjective(id, other);
  }

  // ----- The parts of a slot -----

  /** The name of the root field of a rendered selection, which is empty when there is none. */
  function RootFieldName(field: string): string {
    TrimStart(field)[..NameLen(TrimStart(field))]
  }

  /** Puts the alias in front of the root field. */
  function AliasRootField(field: string, alias: string): string {
    field[..Indent(field)] + (alias + (": " + field[Indent(field)..]))
  }

  function RenamedField(part: Part): string {
    Rename(part.field, Alias(part.id))
  }

  function AliasedField(part: Part): string {
    AliasRootField(RenamedField(part), Alias(part.id))
  }

  function TargetOf(part: Part): Target {
    Target(part.id, RootFieldName(RenamedField(part)))
  }

  /** The part is what the slot's document splits into, and its field has a name. */
  ghost predicate IsPart(slot: Slot, part: Part) {
    && SplitDocument(slot.document) == Some((part.definitions, part.field))
    && part.id == slot.id && part.variables == slot.variables
    && |RootFieldName(RenamedField(part))| > 0
  }

  ghost predicate Renders(slot: Slot) {
    exists part :: IsPart(slot, part)
  }

  /** The renamed definitions of the parts that have any, in the order of the parts. */
  function Definitions(parts: seq<Part>, n: nat): seq<string>
    requires n <= |parts|
  {
    if n == 0 then [] else Definitions(parts, n - 1) + DefinitionsOf(parts[n - 1])
  }

  function DefinitionsOf(part: Part): seq<string> {
    if |part.definitions| == 0 then [] else [Rename(part.definitions, Alias(part.id))]
  }

  function Fields(parts: seq<Part>, n: nat): seq<string>
    requires n <= |parts|
  {
    if n == 0 then [] else Fields(parts, n - 1) + [AliasedField(parts[n - 1])]
  }

  function Concat(strings: seq<string>): string {
    if |strings| == 0 then "" else Concat(strings[..|strings| - 1]) + strings[|strings| - 1]
  }

  /** The strings with `, ` between them. */
  function Join(strings: seq<string>): string {
    if |strings| == 0 then ""
    else if |strings| == 1 then strings[0]
    else Join(strings[..|strings| - 1]) + ([','] + ([' '] + strings[|strings| - 1]))
  }

  function Selection(fields: seq<string>): string {
    ['{'] + (Concat(fields) + ['}'])
  }

  function CombinedDocument(definitions: seq<string>, fields: seq<string>): string {
    if |definitions| == 0 then KEYWORD + ([' '] + (OPERATION + ([' '] + Selection(fields))))
    else KEYWORD + ([' '] + (OPERATION + (['('] + (Join(definitions) + ([')'] + ([' '] + Selection(fields)))))))
  }

  /** Exactly the variables of the first `n` parts, each under the name its slot gave it. */
  ghost predicate Scoped(parts: seq<Part>, n: nat, combined: map<string, Json>)
    requires n <= |parts|
  {
    && (forall i :: 0 <= i < n ==> HasVariables(parts[i], combined))
    && (forall key :: key in combined ==> exists i :: 0 <= i < n && Names(parts[i], key))
  }

  ghost predicate HasVariables(part: Part, combined: map<string, Json>) {
    forall name :: name in part.variables ==>
      VariableName(part.id, name) in combined && combined[VariableName(part.id, name)] == part.variables[name]
  }

  /** `key` is the scoped name of one of the part's variables. */
  ghost predicate Names(part: Part, key: string) {
    exists name :: name in part.variables && key == VariableName(part.id, name)
  }

  /** Exactly the aliases of the first `n` parts, each with its own target. */
  ghost predicate IsTargets(parts: seq<Part>, n: nat, targets: map<string, Target>)
    requires n <= |parts|
  {
    && (forall i :: 0 <= i < n ==> HasTarget(parts[i], targets))
    && (forall alias :: alias in targets ==> exists i :: 0 <= i < n && alias == Alias(parts[i].id))
  }

  ghost predicate HasTarget(part: Part, targets: map<string, Target>) {
    Alias(part.id) in targets && targets[Alias(part.id)] == TargetOf(part)
  }

  /** The parts of a connection, in the order of their ids. */
  ghost predicate Ascending(parts: seq<Part>) {
    forall i, j :: 0 <= i < j < |parts| ==> parts[i].id < parts[j].id
  }

  ghost predicate AscendingSlots(slots: seq<Slot>) {
    forall i, j :: 0 <= i < j < |slots| ==> slots[i].id < slots[j].id
  }

  lemma AliasInjective(id: SlotId, other: SlotId)
    requires Alias(id) == Alias(other)
    ensures id == other
  {
    VariableNameInjective(id, "", other, "");
  }

  // ----- Variables -----

  method ScopeVariables(part: Part) returns (scoped: map<string, Json>)
    ensures HasVariables(part, scoped)
    ensures forall key :: key in scoped ==> Names(part, key)
  {
    scoped := map[];
    var todo := part.variables.Keys;
    while todo != {}
      invariant todo <= part.variables.Keys
      invariant forall name :: name in part.variables && name !in todo ==>
                  VariableName(part.id, name) in scoped
                  && scoped[VariableName(part.id, name)] == part.variables[name]
      invariant forall key :: key in scoped ==> Names(part, key)
      decreases |todo|
    {
      var name :| name in todo;
      var key := VariableName(part.id, name);
      forall other | other in part.variables && VariableName(part.id, other) == key
        ensures other == name
      {
        VariableNameInjective(part.id, name, part.id, other);
      }
      assert Names(part, key);
      scoped := scoped[key := part.variables[name]];
      todo := todo - {name};
    }
  }

  lemma OthersVariables(part: Part, other: Part, key: string)
    requires part.id != other.id && Names(part, key)
    ensures !Names(other, key)
  {
    if Names(other, key) {
      var name :| name in part.variables && key == VariableName(part.id, name);
      var otherName :| otherName in other.variables && key == VariableName(other.id, otherName);
      VariableNameInjective(part.id, name, other.id, otherName);
      assert false;
    }
  }

  lemma KeepsVariables(part: Part, combined: map<string, Json>, other: Part, scoped: map<string, Json>)
    requires part.id != other.id && HasVariables(part, combined)
    requires forall key :: key in scoped ==> Names(other, key)
    ensures HasVariables(part, combined + scoped)
  {
    forall name | name in part.variables
      ensures VariableName(part.id, name) !in scoped
    {
      assert Names(part, VariableName(part.id, name));
      OthersVariables(part, other, VariableName(part.id, name));
    }
  }

  lemma ScopedNext(parts: seq<Part>, n: nat, combined: map<string, Json>, scoped: map<string, Json>)
    requires n < |parts| && Ascending(parts) && Scoped(parts, n, combined)
    requires HasVariables(parts[n], scoped) && forall key :: key in scoped ==> Names(parts[n], key)
    ensures Scoped(parts, n + 1, combined + scoped)
  {
    forall i | 0 <= i < n + 1
      ensures HasVariables(parts[i], combined + scoped)
    {
      if i < n {
        KeepsVariables(parts[i], combined, parts[n], scoped);
      }
    }
    forall key | key in combined + scoped
      ensures exists i :: 0 <= i < n + 1 && Names(parts[i], key)
    {
      if key in scoped {
        assert Names(parts[n], key);
      }
    }
  }

  // ----- Targets -----

  lemma KeepsTarget(part: Part, targets: map<string, Target>, other: Part)
    requires part.id != other.id && HasTarget(part, targets)
    ensures HasTarget(part, targets[Alias(other.id) := TargetOf(other)])
  {
    if Alias(part.id) == Alias(other.id) {
      AliasInjective(part.id, other.id);
    }
  }

  lemma IsTargetsNext(parts: seq<Part>, n: nat, targets: map<string, Target>)
    requires n < |parts| && Ascending(parts) && IsTargets(parts, n, targets)
    ensures IsTargets(parts, n + 1, targets[Alias(parts[n].id) := TargetOf(parts[n])])
  {
    hide TargetOf;
    hide Alias;
    var updated := targets[Alias(parts[n].id) := TargetOf(parts[n])];
    forall i | 0 <= i < n + 1
      ensures HasTarget(parts[i], updated)
    {
      if i < n {
        KeepsTarget(parts[i], targets, parts[n]);
      }
    }
    forall alias | alias in updated
      ensures exists i :: 0 <= i < n + 1 && alias == Alias(parts[i].id)
    {
      if alias != Alias(parts[n].id) {
        assert alias in targets;
      }
    }
  }

  // ----- Building -----

  /** Splits the document of one slot. */
  method SplitSlot(slot: Slot) returns (r: Result<Part, BuildError>)
    ensures r.Success? <==> Renders(slot)
    ensures r.Success? ==> IsPart(slot, r.value)
  {
    var split := SplitDocument(slot.document);
    if split.None? {
      return Failure(ParseError);
    }
    var part := Part(slot.id, split.value.0, split.value.1, slot.variables);
    var field := RenameVariables(part.field, Alias(part.id));
    if |RootFieldName(field)| == 0 {
      forall other | IsPart(slot, other)
        ensures other == part
      {
      }
      return Failure(ParseError);
    }
    assert IsPart(slot, part);
    return Success(part);
  }

  /** What a connection holds once the first `n` parts are assembled. */
  ghost predicate Assembled(parts: seq<Part>, n: nat, definitions: seq<string>, fields: seq<string>,
                            variables: map<string, Json>, targets: map<string, Target>)
    requires n <= |parts|
  {
    && definitions == Definitions(parts, n) && fields == Fields(parts, n)
    && Scoped(parts, n, variables) && IsTargets(parts, n, targets)
  }

  lemma NothingAssembled(parts: seq<Part>)
    ensures Assembled(parts, 0, [], [], map[], map[])
  {}

  lemma AssembledNext(parts: seq<Part>, n: nat, definitions: seq<string>, fields: seq<string>,
                      variables: map<string, Json>, targets: map<string, Target>, scoped: map<string, Json>)
    requires n < |parts| && Ascending(parts) && Assembled(parts, n, definitions, fields, variables, targets)
    requires HasVariables(parts[n], scoped) && forall key :: key in scoped ==> Names(parts[n], key)
    ensures Assembled(parts, n + 1, definitions + DefinitionsOf(parts[n]), fields + [AliasedField(parts[n])],
                      variables + scoped, targets[Alias(parts[n].id) := TargetOf(parts[n])])
  {
    ScopedNext(parts, n, variables, scoped);
    IsTargetsNext(parts, n, targets);
    hide Scoped;
    hide IsTargets;
    hide HasVariables;
    hide Names;
    hide Ascending;
    hide Alias;
    hide AliasedField;
    hide TargetOf;
    hide DefinitionsOf;
  }

  /** What one slot contributes to the connection. */
  method RenderPart(part: Part)
    returns (definitions: seq<string>, field: string, target: Target, scoped: map<string, Json>)
    ensures definitions == DefinitionsOf(part) && field == AliasedField(part) && target == TargetOf(part)
    ensures HasVariables(part, scoped) && forall key :: key in scoped ==> Names(part, key)
  {
    hide HasVariables;
    hide Names;
    hide RootFieldName;
    hide Rename;
    hide AliasRootField;
    var alias := Alias(part.id);
    definitions := [];
    if |part.definitions| > 0 {
      var renamed := RenameVariables(part.definitions, alias);
      definitions := [renamed];
    }
    var renamed := RenameVariables(part.field, alias);
    field := AliasRootField(renamed, alias);
    target := Target(part.id, RootFieldName(renamed));
    scoped := ScopeVariables(part);
  }

  /** Assembles the combined document, its variables and the alias map from the parts of the slots. */
  method Assemble(parts: seq<Part>, resumable: bool) returns (connection: Connection)
    requires Ascending(parts)
    ensures connection.document == CombinedDocument(Definitions(parts, |parts|), Fields(parts, |parts|))
    ensures Scoped(parts, |parts|, connection.variables)
    ensures IsTargets(parts, |parts|, connection.targets)
    ensures connection.resumable == resumable
  {
    var definitions, fields := [], [];
    var variables, targets := map[], map[];
    NothingAssembled(parts);
    for n := 0 to |parts|
      invariant Assembled(parts, n, definitions, fields, variables, targets)
    {
      hide Assembled;
      var definitionsOfSlot, field, target, scoped := RenderPart(parts[n]);
      AssembledNext(parts, n, definitions, fields, variables, targets, scoped);
      definitions, fields := definitions + definitionsOfSlot, fields + [field];
      variables := variables + scoped;
      targets := targets[Alias(parts[n].id) := target];
    }
    return Connection(CombinedDocument(definitions, fields), variables, targets, resumable);
  }

  ghost predicate ArePartsOf(parts: seq<Part>, slots: seq<Slot>) {
    |parts| == |slots| && forall i :: 0 <= i < |slots| ==> IsPart(slots[i], parts[i])
  }

  /** The connection carries exactly the slots whose parts these are. */
  ghost predicate Carries(connection: Connection, parts: seq<Part>) {
    && connection.document == CombinedDocument(Definitions(parts, |parts|), Fields(parts, |parts|))
    && Scoped(parts, |parts|, connection.variables)
    && IsTargets(parts, |parts|, connection.targets)
  }

  /** Assembles the combined document, its variables and the alias map of one connection, or fails when a slot does. */
  method BuildConnection(slots: seq<Slot>) returns (r: Result<Connection, BuildError>)
    requires AscendingSlots(slots)
    ensures r.Success? <==> forall i :: 0 <= i < |slots| ==> Renders(slots[i])
    ensures r.Success? ==> exists parts :: ArePartsOf(parts, slots) && Ascending(parts) && Carries(r.value, parts)
    ensures r.Success? ==> (r.value.resumable <==> exists i :: 0 <= i < |slots| && slots[i].resumable)
  {
    hide SplitDocument;
    hide RenamedField;
    hide RootFieldName;
    hide IsPart;
    hide Carries;
    hide Ascending;
    var parts := [];
    var resumable := false;
    for n := 0 to |slots|
      invariant |parts| == n && forall i :: 0 <= i < n ==> IsPart(slots[i], parts[i])
      invariant resumable <==> exists i :: 0 <= i < n && slots[i].resumable
    {
      var split := SplitSlot(slots[n]);
      if split.Failure? {
        return Failure(ParseError);
      }
      parts := parts + [split.value];
      resumable := resumable || slots[n].resumable;
    }
    PartsAreAscending(parts, slots);
    var connection := Assemble(parts, resumable);
    CarriesWhatItAssembled(connection, parts);
    return Success(connection);
  }

  lemma CarriesWhatItAssembled(connection: Connection, parts: seq<Part>)
    requires connection.document == CombinedDocument(Definitions(parts, |parts|), Fields(parts, |parts|))
    requires Scoped(parts, |parts|, connection.variables)
    requires IsTargets(parts, |parts|, connection.targets)
    ensures Carries(connection, parts)
  {}

  lemma PartsAreAscending(parts: seq<Part>, slots: seq<Slot>)
    requires ArePartsOf(parts, slots) && AscendingSlots(slots)
    ensures Ascending(parts)
  {
    assert forall i :: 0 <= i < |slots| ==> IsPart(slots[i], parts[i]);
  }
}
