/**
 The in-memory test client: submissions change its state or leave it alone, changes of the service registry are
 broadcast, and a subscriber that starts from a snapshot and follows the broadcasts has a replica of its own.
 */
module Replica {
  import opened Options
  import opened ServiceTypes

  type Address = a: seq<Byte> | |a| == 20 witness Zeros(20)

  datatype ServiceEntry = ServiceEntry(serviceType: string, node: string, safe: string, metadata: string,
                                       registeredAt: string, updatedAt: string)

  /** What the client keeps, as far as submissions are checked or service changes broadcast. */
  datatype TestState = TestState(
    accounts: map<nat, string>,
    channels: map<string, string>,
    nativeBalances: map<string, string>,
    tokenBalances: map<string, string>,
    safeAllowances: map<string, string>,
    activeTxs: map<string, string>,
    serviceTypes: map<string, string>,
    services: map<string, ServiceEntry>)

  datatype Kind = Registered | Updated | Deregistered

  datatype ServiceUpdate = ServiceUpdate(kind: Kind, serviceType: string, node: string, entry: Option<ServiceEntry>)

  datatype Selector =
    | ServiceType(wanted: ServiceTypeId)
    | Node(address: Address)
    | ServiceTypeAndNode(wanted: ServiceTypeId, address: Address)
    | Any

  predicate ServiceMatches(serviceType: string, node: string, selector: Selector) {
    match selector
    case ServiceType(wanted) => ServiceTypeMatches(serviceType, wanted)
    case Node(address) => HexMatches(node, address)
    case ServiceTypeAndNode(wanted, address) => ServiceTypeMatches(serviceType, wanted) && HexMatches(node, address)
    case Any => true
  }

  lemma HexOfAddress(text: string, node: Address, wanted: Address)
    requires text == EncodeHex(node) || text == "0x" + EncodeHex(node)
    ensures HexMatches(text, wanted) <==> wanted == node
  {
    EncodedIsNo0x(node);
    assert ("0x" + EncodeHex(node))[2..] == EncodeHex(node);
    HexMatchesMeans(text, wanted);
    DecodeEncode(node);
  }

  /** An entry as Blokli renders it is selected by its own type, its own node, both of them, or anything. */
  lemma SelectsItsOwn(id: ServiceTypeId, node: Address, text: string, selector: Selector)
    requires text == EncodeHex(node) || text == "0x" + EncodeHex(node)
    ensures ServiceMatches(Render(id), text, selector)
       <==> && (selector.ServiceType? || selector.ServiceTypeAndNode? ==> selector.wanted == id)
            && (selector.Node? || selector.ServiceTypeAndNode? ==> selector.address == node)
  {
    if !selector.Any? && !selector.Node? {
      RenderedMatchesItself(id, selector.wanted);
    }
    if !selector.Any? && !selector.ServiceType? {
      HexOfAddress(text, node, selector.address);
    }
    hide ServiceTypeMatches;
    hide HexMatches;
  }

  // ----- Keys -----

  /** The key the client suggests for an entry. */
  function ServiceEntryKey(serviceType: string, node: Address): string {
    serviceType + "/" + EncodeHex(node)
  }

  /** Suggested keys tell entries apart. */
  lemma ServiceEntryKeysDiffer(a: string, m: Address, b: string, n: Address)
    requires ServiceEntryKey(a, m) == ServiceEntryKey(b, n)
    ensures a == b && m == n
  {
    var x, y := EncodeHex(m), EncodeHex(n);
    DecodeEncode(m);
    DecodeEncode(n);
    var key := a + "/" + x;
    assert |a| == |b|;
    assert key[..|a|] == a && key[|a| + 1..] == x;
    assert (b + "/" + y)[..|b|] == b && (b + "/" + y)[|b| + 1..] == y;
  }

  /** What an update identifies an entry by. */
  datatype Name = Name(serviceType: string, node: string)

  function NameOf(entry: ServiceEntry): Name {
    Name(entry.serviceType, entry.node)
  }

  predicate Selects(entry: ServiceEntry, selector: Selector) {
    ServiceMatches(entry.serviceType, entry.node, selector)
  }

  /** Keys determine names, and names keys, in and between two registries. */
  ghost predicate KeyedAlike(a: map<string, ServiceEntry>, b: map<string, ServiceEntry>) {
    forall k, j :: k in a && j in b ==> (k == j <==> NameOf(a[k]) == NameOf(b[j]))
  }

  ghost predicate WellKeyed(a: map<string, ServiceEntry>, b: map<string, ServiceEntry>) {
    KeyedAlike(a, a) && KeyedAlike(a, b) && KeyedAlike(b, b)
  }

  // ----- Changes -----

  predicate Changed(before: map<string, ServiceEntry>, after: map<string, ServiceEntry>, k: string) {
    if k in after then k !in before || before[k] != after[k] else k in before
  }

  function ChangedKeys(before: map<string, ServiceEntry>, after: map<string, ServiceEntry>): set<string> {
    set k | k in before.Keys + after.Keys && Changed(before, after, k)
  }

  /** The update that tells of a change. */
  function UpdateFor(before: map<string, ServiceEntry>, after: map<string, ServiceEntry>, k: string): ServiceUpdate
    requires Changed(before, after, k)
  {
    if k !in after then ServiceUpdate(Deregistered, before[k].serviceType, before[k].node, None)
    else ServiceUpdate(if k in before then Updated else Registered, after[k].serviceType, after[k].node, Some(after[k]))
  }

  /** An update says what became of an entry, and carries it if it is still there. */
  lemma UpdateTells(before: map<string, ServiceEntry>, after: map<string, ServiceEntry>, k: string)
    requires Changed(before, after, k)
    ensures var u := UpdateFor(before, after, k);
            && (u.kind.Registered? <==> k !in before && k in after)
            && (u.kind.Updated? <==> k in before && k in after && before[k] != after[k])
            && (u.kind.Deregistered? <==> k in before && k !in after)
            && u.entry == (if k in after then Some(after[k]) else None)
            && Name(u.serviceType, u.node) == NameOf(if k in after then after[k] else before[k])
  {}

  /** The updates that tell of the changes at `keys`, once each. */
  ghost predicate Tells(before: map<string, ServiceEntry>, after: map<string, ServiceEntry>, keys: seq<string>,
                        updates: seq<ServiceUpdate>)
  {
    && |updates| == |keys|
    && (forall i :: 0 <= i < |keys| ==> Changed(before, after, keys[i])
                                        && updates[i] == UpdateFor(before, after, keys[i]))
    && (forall i, j :: 0 <= i < j < |keys| ==> keys[i] != keys[j])
  }

  function KeySet(keys: seq<string>): set<string> {
    set k | k in keys
  }

  // ----- The subscriber -----

  /** What a subscriber makes of an update. */
  function Apply(replica: map<Name, ServiceEntry>, u: ServiceUpdate, selector: Selector): map<Name, ServiceEntry> {
    if !ServiceMatches(u.serviceType, u.node, selector) then replica
    else if u.entry.Some? then replica[Name(u.serviceType, u.node) := u.entry.value]
    else replica - {Name(u.serviceType, u.node)}
  }

  function Replay(replica: map<Name, ServiceEntry>, updates: seq<ServiceUpdate>, selector: Selector)
    : map<Name, ServiceEntry>
  {
    if |updates| == 0 then replica
    else Apply(Replay(replica, updates[..|updates| - 1], selector), updates[|updates| - 1], selector)
  }

  /** The replica holds exactly the selected entries. */
  ghost predicate IsExact(replica: map<Name, ServiceEntry>, services: map<string, ServiceEntry>, selector: Selector) {
    && (forall k :: k in services && Selects(services[k], selector) ==>
          NameOf(services[k]) in replica && replica[NameOf(services[k])] == services[k])
    && (forall name :: name in replica ==>
          exists k :: k in services && Selects(services[k], selector) && NameOf(services[k]) == name)
  }

  /** The registry once the changes at some keys are made. */
  function Patched(before: map<string, ServiceEntry>, after: map<string, ServiceEntry>, keys: set<string>)
    : map<string, ServiceEntry>
  {
    map k | k in (before.Keys - keys) + (after.Keys * keys) :: if k in keys then after[k] else before[k]
  }

  /** The registries differ at one key at most, and the update tells how. */
  ghost predicate OneChange(m: map<string, ServiceEntry>, m': map<string, ServiceEntry>, k: string, u: ServiceUpdate) {
    && (forall j :: j in m && j != k ==> j in m' && m'[j] == m[j] && NameOf(m[j]) != Name(u.serviceType, u.node))
    && (forall j :: j in m' && j != k ==> j in m)
    && (k in m ==> NameOf(m[k]) == Name(u.serviceType, u.node))
    && (if k in m' then NameOf(m'[k]) == Name(u.serviceType, u.node) && u.entry == Some(m'[k]) else u.entry == None)
  }

  lemma PatchIsOneChange(before: map<string, ServiceEntry>, after: map<string, ServiceEntry>, keys: set<string>,
                         k: string)
    requires WellKeyed(before, after) && Changed(before, after, k) && k !in keys
    ensures OneChange(Patched(before, after, keys), Patched(before, after, keys + {k}), k, UpdateFor(before, after, k))
  {
    var m, m', u := Patched(before, after, keys), Patched(before, after, keys + {k}), UpdateFor(before, after, k);
    forall j | j in m && j != k
      ensures j in m' && m'[j] == m[j] && NameOf(m[j]) != Name(u.serviceType, u.node)
    {
      assert (if j in keys then j in after && m[j] == after[j] else j in before && m[j] == before[j]);
      assert u.entry.Some? ==> k in after && Name(u.serviceType, u.node) == NameOf(after[k]);
      assert u.entry.None? ==> k in before && Name(u.serviceType, u.node) == NameOf(before[k]);
    }
  }

  lemma ChangedOnes(m: map<string, ServiceEntry>, m': map<string, ServiceEntry>, k: string, u: ServiceUpdate,
                    replica: map<Name, ServiceEntry>, selector: Selector, j: string)
    requires OneChange(m, m', k, u) && IsExact(replica, m, selector) && j in m' && Selects(m'[j], selector)
    ensures var replica' := Apply(replica, u, selector);
            NameOf(m'[j]) in replica' && replica'[NameOf(m'[j])] == m'[j]
  {
    hide ServiceMatches;
  }

  lemma ChangedNames(m: map<string, ServiceEntry>, m': map<string, ServiceEntry>, k: string, u: ServiceUpdate,
                     replica: map<Name, ServiceEntry>, selector: Selector, name: Name)
    requires OneChange(m, m', k, u) && IsExact(replica, m, selector) && name in Apply(replica, u, selector)
    ensures exists j :: j in m' && Selects(m'[j], selector) && NameOf(m'[j]) == name
  {
    hide ServiceMatches;
    if name == Name(u.serviceType, u.node) && ServiceMatches(u.serviceType, u.node, selector) {
      assert k in m' && Selects(m'[k], selector);
    } else {
      var j :| j in m && Selects(m[j], selector) && NameOf(m[j]) == name;
      assert j != k;
    }
  }

  /** Applying the update keeps an exact replica exact. */
  lemma ApplyKeepsExact(m: map<string, ServiceEntry>, m': map<string, ServiceEntry>, k: string, u: ServiceUpdate,
                        replica: map<Name, ServiceEntry>, selector: Selector)
    requires OneChange(m, m', k, u) && IsExact(replica, m, selector)
    ensures IsExact(Apply(replica, u, selector), m', selector)
  {
    hide Selects;
    hide OneChange;
    hide Apply;
    var replica' := Apply(replica, u, selector);
    forall j | j in m' && Selects(m'[j], selector)
      ensures NameOf(m'[j]) in replica' && replica'[NameOf(m'[j])] == m'[j]
    {
      ChangedOnes(m, m', k, u, replica, selector, j);
    }
    forall name | name in replica'
      ensures exists j :: j in m' && Selects(m'[j], selector) && NameOf(m'[j]) == name
    {
      ChangedNames(m, m', k, u, replica, selector, name);
    }
  }

  lemma KeySetNext(keys: seq<string>, n: nat)
    requires n < |keys| && forall i, j :: 0 <= i < j < |keys| ==> keys[i] != keys[j]
    ensures KeySet(keys[..n + 1]) == KeySet(keys[..n]) + {keys[n]} && keys[n] !in KeySet(keys[..n])
  {
    assert keys[..n + 1] == keys[..n] + [keys[n]];
  }

  /** Replaying the updates makes the changes they tell of. */
  lemma {:induction false} ReplayPatches(before: map<string, ServiceEntry>, after: map<string, ServiceEntry>,
                                         keys: seq<string>, updates: seq<ServiceUpdate>, n: nat,
                                         replica: map<Name, ServiceEntry>, selector: Selector)
    requires WellKeyed(before, after) && Tells(before, after, keys, updates) && n <= |keys|
    requires IsExact(replica, before, selector)
    ensures IsExact(Replay(replica, updates[..n], selector), Patched(before, after, KeySet(keys[..n])), selector)
  {
    hide IsExact;
    hide WellKeyed;
    hide Changed;
    hide UpdateFor;
    hide Apply;
    if n == 0 {
      assert Patched(before, after, KeySet(keys[..0])) == before;
    } else {
      hide Patched;
      ReplayPatches(before, after, keys, updates, n - 1, replica, selector);
      KeySetNext(keys, n - 1);
      PatchIsOneChange(before, after, KeySet(keys[..n - 1]), keys[n - 1]);
      assert updates[..n][..n - 1] == updates[..n - 1];
      ApplyKeepsExact(Patched(before, after, KeySet(keys[..n - 1])), Patched(before, after, KeySet(keys[..n])),
                      keys[n - 1], updates[n - 1], Replay(replica, updates[..n - 1], selector), selector);
    }
  }

  // ----- Losses -----

  /** Whether a change concerns a subscriber. */
  predicate Concerns(before: map<string, ServiceEntry>, after: map<string, ServiceEntry>, k: string, selector: Selector)
    requires Changed(before, after, k)
  {
    var u := UpdateFor(before, after, k);
    ServiceMatches(u.serviceType, u.node, selector)
  }

  lemma ConcernedEntry(before: map<string, ServiceEntry>, after: map<string, ServiceEntry>, k: string,
                       selector: Selector)
    requires WellKeyed(before, after) && Changed(before, after, k)
    ensures k in before ==> (Selects(before[k], selector) <==> Concerns(before, after, k, selector))
    ensures k in after ==> (Selects(after[k], selector) <==> Concerns(before, after, k, selector))
  {
    hide ServiceMatches;
    assert k in before && k in after ==> NameOf(before[k]) == NameOf(after[k]);
  }

  /** A registry that misses a change is told apart by whoever the change concerns. */
  lemma MissedShows(before: map<string, ServiceEntry>, after: map<string, ServiceEntry>, keys: set<string>, k: string,
                    replica: map<Name, ServiceEntry>, selector: Selector)
    requires WellKeyed(before, after) && Changed(before, after, k) && k !in keys && Concerns(before, after, k, selector)
    requires IsExact(replica, Patched(before, after, keys), selector)
    ensures !IsExact(replica, after, selector)
  {
    var m := Patched(before, after, keys);
    ConcernedEntry(before, after, k, selector);
    assert k in m <==> k in before;
    assert k in before ==> m[k] == before[k];
    hide Selects;
    hide Concerns;
    if k in before {
      assert NameOf(before[k]) in replica && replica[NameOf(before[k])] == before[k];
    } else {
      NotPatchedIn(before, after, keys, k, replica, selector);
    }
  }

  lemma NotPatchedIn(before: map<string, ServiceEntry>, after: map<string, ServiceEntry>, keys: set<string>, k: string,
                     replica: map<Name, ServiceEntry>, selector: Selector)
    requires WellKeyed(before, after) && k in after && k !in before && k !in keys
    requires IsExact(replica, Patched(before, after, keys), selector)
    ensures NameOf(after[k]) !in replica
  {
    hide Selects;
    var m := Patched(before, after, keys);
    forall j | j in m
      ensures NameOf(m[j]) != NameOf(after[k])
    {
      assert if j in keys then j in after && m[j] == after[j] else j in before && m[j] == before[j];
    }
  }

  lemma SelectedAlike(before: map<string, ServiceEntry>, after: map<string, ServiceEntry>, keys: set<string>, k: string,
                      selector: Selector)
    requires WellKeyed(before, after)
    requires Changed(before, after, k) && k !in keys ==> !Concerns(before, after, k, selector)
    ensures var m := Patched(before, after, keys);
            && (k in m && Selects(m[k], selector) <==> k in after && Selects(after[k], selector))
            && (k in m && Selects(m[k], selector) ==> m[k] == after[k])
  {
    if k !in keys && Changed(before, after, k) {
      ConcernedEntry(before, after, k, selector);
    }
    hide Selects;
    hide WellKeyed;
    hide Concerns;
  }

  lemma ExactAlike(m: map<string, ServiceEntry>, m': map<string, ServiceEntry>, replica: map<Name, ServiceEntry>,
                   selector: Selector)
    requires IsExact(replica, m, selector)
    requires forall k :: k in m && Selects(m[k], selector) ==>
               k in m' && Selects(m'[k], selector) && m'[k] == m[k]
    requires forall k :: k in m' && Selects(m'[k], selector) ==>
               k in m && Selects(m[k], selector) && m'[k] == m[k]
    ensures IsExact(replica, m', selector)
  {
    hide Selects;
  }

  /** Missing only what does not concern a subscriber leaves its replica exact. */
  lemma MissedHarmlessly(before: map<string, ServiceEntry>, after: map<string, ServiceEntry>, keys: set<string>,
                         replica: map<Name, ServiceEntry>, selector: Selector)
    requires WellKeyed(before, after) && IsExact(replica, Patched(before, after, keys), selector)
    requires forall k :: Changed(before, after, k) && k !in keys ==> !Concerns(before, after, k, selector)
    ensures IsExact(replica, after, selector)
  {
    var m := Patched(before, after, keys);
    forall k
      ensures k in m && Selects(m[k], selector) ==> k in after && Selects(after[k], selector) && m[k] == after[k]
      ensures k in after && Selects(after[k], selector) ==> k in m && Selects(m[k], selector) && m[k] == after[k]
    {
      SelectedAlike(before, after, keys, k, selector);
    }
    hide *;
    ExactAlike(m, after, replica, selector);
  }

  /**
   After a submission the replica of a subscriber that heard the updates for `keys` is exact if and only if no change
   that concerns it is missing from them.
   */
  lemma ExactIffNothingMissed(before: map<string, ServiceEntry>, after: map<string, ServiceEntry>, keys: seq<string>,
                              updates: seq<ServiceUpdate>, replica: map<Name, ServiceEntry>, selector: Selector)
    requires WellKeyed(before, after) && Tells(before, after, keys, updates) && IsExact(replica, before, selector)
    ensures IsExact(Replay(replica, updates, selector), after, selector)
       <==> forall k :: Changed(before, after, k) && k !in keys ==> !Concerns(before, after, k, selector)
  {
    ReplayPatches(before, after, keys, updates, |keys|, replica, selector);
    assert updates[..|keys|] == updates && keys[..|keys|] == keys;
    var replica' := Replay(replica, updates, selector);
    hide IsExact;
    hide WellKeyed;
    hide Concerns;
    hide Tells;
    hide Replay;
    hide Patched;
    if k :| Changed(before, after, k) && k !in keys && Concerns(before, after, k, selector) {
      MissedShows(before, after, KeySet(keys), k, replica', selector);
    } else {
      MissedHarmlessly(before, after, KeySet(keys), replica', selector);
    }
  }

  // ----- Runs -----

  /** A history of registries and of the updates that were heard about each step. */
  ghost predicate IsBroadcast(registries: seq<map<string, ServiceEntry>>, keys: seq<seq<string>>,
                              updates: seq<seq<ServiceUpdate>>)
  {
    && |registries| == |keys| + 1 && |updates| == |keys|
    && forall i :: 0 <= i < |keys| ==>
         WellKeyed(registries[i], registries[i + 1]) && Tells(registries[i], registries[i + 1], keys[i], updates[i])
  }

  /** In step `i`, no change that concerns the subscriber was lost. */
  ghost predicate NothingMissed(registries: seq<map<string, ServiceEntry>>, keys: seq<seq<string>>, i: nat,
                                selector: Selector)
    requires i < |keys| && |registries| == |keys| + 1
  {
    forall k :: Changed(registries[i], registries[i + 1], k) && k !in keys[i] ==>
      !Concerns(registries[i], registries[i + 1], k, selector)
  }

  /** The replica after `n` steps. */
  function ReplicaAfter(replica: map<Name, ServiceEntry>, updates: seq<seq<ServiceUpdate>>, n: nat, selector: Selector)
    : map<Name, ServiceEntry>
    requires n <= |updates|
  {
    if n == 0 then replica else Replay(ReplicaAfter(replica, updates, n - 1, selector), updates[n - 1], selector)
  }

  ghost predicate ExactAt(registries: seq<map<string, ServiceEntry>>, replica: map<Name, ServiceEntry>,
                          updates: seq<seq<ServiceUpdate>>, n: nat, selector: Selector)
    requires n <= |updates| && |registries| == |updates| + 1
  {
    IsExact(ReplicaAfter(replica, updates, n, selector), registries[n], selector)
  }

  lemma ExactNext(registries: seq<map<string, ServiceEntry>>, keys: seq<seq<string>>,
                  updates: seq<seq<ServiceUpdate>>, replica: map<Name, ServiceEntry>, n: nat, selector: Selector)
    requires IsBroadcast(registries, keys, updates) && n < |keys| && ExactAt(registries, replica, updates, n, selector)
    ensures |updates| == |keys| && |registries| == |keys| + 1
    ensures ExactAt(registries, replica, updates, n + 1, selector) <==> NothingMissed(registries, keys, n, selector)
  {
    assert WellKeyed(registries[n], registries[n + 1]);
    ExactIffNothingMissed(registries[n], registries[n + 1], keys[n], updates[n],
                          ReplicaAfter(replica, updates, n, selector), selector);
    hide IsExact;
    hide WellKeyed;
    hide Tells;
    hide Concerns;
    hide Changed;
    hide Replay;
  }

  /** The replica is exact after each of the first `n` steps. */
  ghost predicate AllExact(registries: seq<map<string, ServiceEntry>>, replica: map<Name, ServiceEntry>,
                           updates: seq<seq<ServiceUpdate>>, n: nat, selector: Selector)
    requires n <= |updates| && |registries| == |updates| + 1
  {
    forall i :: 0 <= i <= n ==> ExactAt(registries, replica, updates, i, selector)
  }

  /** In none of the first `n` steps was a change lost that concerns the subscriber. */
  ghost predicate NoneMissed(registries: seq<map<string, ServiceEntry>>, keys: seq<seq<string>>, n: nat,
                             selector: Selector)
    requires n <= |keys| && |registries| == |keys| + 1
  {
    forall i :: 0 <= i < n ==> NothingMissed(registries, keys, i, selector)
  }

  lemma OneStepMore(registries: seq<map<string, ServiceEntry>>, keys: seq<seq<string>>,
                    updates: seq<seq<ServiceUpdate>>, replica: map<Name, ServiceEntry>, n: nat, selector: Selector)
    requires n < |keys| && |updates| == |keys| && |registries| == |keys| + 1
    ensures AllExact(registries, replica, updates, n + 1, selector)
       <==> AllExact(registries, replica, updates, n, selector)
            && ExactAt(registries, replica, updates, n + 1, selector)
    ensures AllExact(registries, replica, updates, n, selector) ==> ExactAt(registries, replica, updates, n, selector)
    ensures NoneMissed(registries, keys, n + 1, selector)
       <==> NoneMissed(registries, keys, n, selector) && NothingMissed(registries, keys, n, selector)
  {
    hide ExactAt;
    hide NothingMissed;
  }

  /**
   Over any run of submissions, the replica of a subscriber is exact after every one of them if and only if no update
   that concerns the subscriber was lost on a full channel.
   */
  lemma {:induction false} ReplicaStaysExact(registries: seq<map<string, ServiceEntry>>, keys: seq<seq<string>>,
                                             updates: seq<seq<ServiceUpdate>>, replica: map<Name, ServiceEntry>,
                                             n: nat, selector: Selector)
    requires IsBroadcast(registries, keys, updates) && n <= |keys|
    requires IsExact(replica, registries[0], selector)
    ensures |updates| == |keys| && |registries| == |keys| + 1
    ensures AllExact(registries, replica, updates, n, selector) <==> NoneMissed(registries, keys, n, selector)
  {
    if n > 0 {
      assert |updates| == |keys| && |registries| == |keys| + 1;
      hide *;
      ReplicaStaysExact(registries, keys, updates, replica, n - 1, selector);
      OneStepMore(registries, keys, updates, replica, n - 1, selector);
      if AllExact(registries, replica, updates, n - 1, selector) {
        ExactNext(registries, keys, updates, replica, n - 1, selector);
      }
    }
  }

  // ----- The test client -----

  /** What a submission must not shrink. Service entries are not among it: deregistration removes them. */
  datatype Guarded =
    | Accounts | Channels | NativeBalances | TokenBalances | SafeAllowances | ActiveTxs | ServiceTypeConfigs

  datatype TxError = MutatorFailed | CannotRemove(what: Guarded)

  /** The first guarded collection that got smaller. */
  function FirstShrunk(before: TestState, after: TestState): Option<Guarded> {
    if |before.accounts| > |after.accounts| then Some(Accounts)
    else if |before.channels| > |after.channels| then Some(Channels)
    else if |before.nativeBalances| > |after.nativeBalances| then Some(NativeBalances)
    else if |before.tokenBalances| > |after.tokenBalances| then Some(TokenBalances)
    else if |before.safeAllowances| > |after.safeAllowances| then Some(SafeAllowances)
    else if |before.activeTxs| > |after.activeTxs| then Some(ActiveTxs)
    else if |before.serviceTypes| > |after.serviceTypes| then Some(ServiceTypeConfigs)
    else None
  }

  /** A transaction, by what the mutator makes of the state and whether it reports an error. */
  datatype Submission = Submission(mutated: TestState, failed: bool)

  function Verdict(before: TestState, submission: Submission): Result<(), TxError> {
    if submission.failed then Failure(MutatorFailed)
    else match FirstShrunk(before, submission.mutated)
      case Some(what) => Failure(CannotRemove(what))
      case None => Success(())
  }

  function Size(state: TestState, what: Guarded): nat {
    match what
    case Accounts => |state.accounts|
    case Channels => |state.channels|
    case NativeBalances => |state.nativeBalances|
    case TokenBalances => |state.tokenBalances|
    case SafeAllowances => |state.safeAllowances|
    case ActiveTxs => |state.activeTxs|
    case ServiceTypeConfigs => |state.serviceTypes|
  }

  /** The order in which the guards are checked. */
  function Rank(what: Guarded): nat {
    match what
    case Accounts => 0
    case Channels => 1
    case NativeBalances => 2
    case TokenBalances => 3
    case SafeAllowances => 4
    case ActiveTxs => 5
    case ServiceTypeConfigs => 6
  }

  predicate Shrinks(before: TestState, after: TestState, what: Guarded) {
    Size(after, what) < Size(before, what)
  }

  ghost predicate ShrinksFirst(before: TestState, after: TestState, what: Guarded) {
    Shrinks(before, after, what) && forall other :: Rank(other) < Rank(what) ==> !Shrinks(before, after, other)
  }

  lemma FirstShrunkMeans(before: TestState, after: TestState)
    ensures match FirstShrunk(before, after)
            case Some(what) => ShrinksFirst(before, after, what)
            case None => forall what :: !Shrinks(before, after, what)
  {
    var shrunk := FirstShrunk(before, after);
    forall what | shrunk.None? || Rank(what) < Rank(shrunk.value)
      ensures !Shrinks(before, after, what)
    {
      NotBefore(before, after, what);
    }
  }

  lemma NotBefore(before: TestState, after: TestState, what: Guarded)
    requires FirstShrunk(before, after).None? || Rank(what) < Rank(FirstShrunk(before, after).value)
    ensures !Shrinks(before, after, what)
  {}

  /**
   A submission succeeds if and only if its mutator does and shrinks nothing that is guarded; otherwise the error is the
   mutator's, or names what shrinks first.
   */
  lemma VerdictMeans(before: TestState, submission: Submission)
    ensures match Verdict(before, submission)
            case Success(_) => !submission.failed && forall what :: !Shrinks(before, submission.mutated, what)
            case Failure(MutatorFailed) => submission.failed
            case Failure(CannotRemove(what)) => !submission.failed && ShrinksFirst(before, submission.mutated, what)
  {
    FirstShrunkMeans(before, submission.mutated);
    hide FirstShrunk;
    hide Shrinks;
    hide ShrinksFirst;
  }

  /** What a submission does to the state, and the updates that are broadcast about it, at these keys. */
  ghost predicate Submitted(before: TestState, submission: Submission, after: TestState, keys: seq<string>,
                            updates: seq<ServiceUpdate>)
  {
    if Verdict(before, submission).Success? then
      after == submission.mutated && Tells(before.services, after.services, keys, updates)
    else after == before && |keys| == 0 && |updates| == 0
  }

  const CHANNEL_CAPACITY: nat := 1024

  // ----- Runs of submissions -----

  /** A run of submissions, and what was broadcast about each. */
  ghost predicate IsClientRun(states: seq<TestState>, submissions: seq<Submission>, keys: seq<seq<string>>,
                              updates: seq<seq<ServiceUpdate>>)
  {
    && |states| == |submissions| + 1 && |keys| == |submissions| && |updates| == |submissions|
    && forall i :: 0 <= i < |submissions| ==>
         Submitted(states[i], submissions[i], states[i + 1], keys[i], updates[i])
  }

  /** The registry is keyed by names at first, and mutators that succeed keep it so. */
  ghost predicate KeepsKeys(states: seq<TestState>, submissions: seq<Submission>)
    requires |states| == |submissions| + 1
  {
    && KeyedAlike(states[0].services, states[0].services)
    && forall i :: 0 <= i < |submissions| && Verdict(states[i], submissions[i]).Success? ==>
         WellKeyed(states[i].services, submissions[i].mutated.services)
  }

  function Registries(states: seq<TestState>): seq<map<string, ServiceEntry>> {
    seq(|states|, i requires 0 <= i < |states| => states[i].services)
  }

  lemma {:induction false} KeyedAllAlong(states: seq<TestState>, submissions: seq<Submission>, keys: seq<seq<string>>,
                                         updates: seq<seq<ServiceUpdate>>, n: nat)
    requires IsClientRun(states, submissions, keys, updates) && KeepsKeys(states, submissions) && n <= |submissions|
    ensures KeyedAlike(states[n].services, states[n].services)
    ensures n < |submissions| ==> WellKeyed(states[n].services, states[n + 1].services)
    ensures n < |submissions| ==> Tells(states[n].services, states[n + 1].services, keys[n], updates[n])
  {
    hide Verdict;
    hide KeyedAlike;
    if n > 0 {
      KeyedAllAlong(states, submissions, keys, updates, n - 1);
    }
    if n < |submissions| {
      assert Submitted(states[n], submissions[n], states[n + 1], keys[n], updates[n]);
    }
  }

  lemma ClientRunIsBroadcast(states: seq<TestState>, submissions: seq<Submission>, keys: seq<seq<string>>,
                             updates: seq<seq<ServiceUpdate>>)
    requires IsClientRun(states, submissions, keys, updates) && KeepsKeys(states, submissions)
    ensures IsBroadcast(Registries(states), keys, updates)
  {
    hide Tells;
    hide WellKeyed;
    hide KeepsKeys;
    hide Submitted;
    forall i | 0 <= i < |keys|
      ensures WellKeyed(states[i].services, states[i + 1].services)
      ensures Tells(states[i].services, states[i + 1].services, keys[i], updates[i])
    {
      KeyedAllAlong(states, submissions, keys, updates, i);
    }
  }

  /**
   Over any run of submissions, successful, failed or refused, a subscriber that started from what a subscription starts
   with has an exact replica after every one of them if and only if no update that concerns it was lost.
   */
  lemma SubscriberStaysExact(states: seq<TestState>, submissions: seq<Submission>, keys: seq<seq<string>>,
                             updates: seq<seq<ServiceUpdate>>, initial: seq<ServiceUpdate>, selector: Selector)
    requires IsClientRun(states, submissions, keys, updates) && KeepsKeys(states, submissions)
    requires IsExact(Replay(map[], initial, selector), states[0].services, selector)
    ensures |Registries(states)| == |keys| + 1 && |updates| == |keys|
    ensures AllExact(Registries(states), Replay(map[], initial, selector), updates, |keys|, selector)
       <==> NoneMissed(Registries(states), keys, |keys|, selector)
  {
    ClientRunIsBroadcast(states, submissions, keys, updates);
    assert Registries(states)[0] == states[0].services;
    hide IsClientRun;
    hide KeepsKeys;
    hide IsBroadcast;
    hide IsExact;
    ReplicaStaysExact(Registries(states), keys, updates, Replay(map[], initial, selector), |keys|, selector);
  }

  lemma NothingChanged(services: map<string, ServiceEntry>)
    ensures ChangedKeys(services, services) == {} && KeySet([]) == {}
  {}

  // ----- Telling of changes -----

  /** Updates for distinct changed keys out of `todo`, and the changed keys out of it whose updates were lost. */
  ghost predicate TellsSoFar(before: map<string, ServiceEntry>, after: map<string, ServiceEntry>, keys: seq<string>,
                             updates: seq<ServiceUpdate>, lost: set<string>, done: set<string>)
  {
    && Tells(before, after, keys, updates)
    && KeySet(keys) + lost == ChangedKeys(before, after) * done
    && KeySet(keys) !! lost
  }

  lemma TellNext(before: map<string, ServiceEntry>, after: map<string, ServiceEntry>, keys: seq<string>,
                 updates: seq<ServiceUpdate>, lost: set<string>, done: set<string>, k: string)
    requires TellsSoFar(before, after, keys, updates, lost, done) && k !in done
    ensures if Changed(before, after, k) then
              && TellsSoFar(before, after, keys + [k], updates + [UpdateFor(before, after, k)], lost, done + {k})
              && TellsSoFar(before, after, keys, updates, lost + {k}, done + {k})
            else TellsSoFar(before, after, keys, updates, lost, done + {k})
  {
    assert KeySet(keys + [k]) == KeySet(keys) + {k};
    assert k !in KeySet(keys);
    hide UpdateFor;
    hide Changed;
    assert k in ChangedKeys(before, after) <==> Changed(before, after, k) by {
      ChangedMeans(before, after, k);
    }
    hide ChangedKeys;
  }

  lemma ChangedMeans(before: map<string, ServiceEntry>, after: map<string, ServiceEntry>, k: string)
    ensures k in ChangedKeys(before, after) <==> Changed(before, after, k)
  {}

  lemma UntoldYet(before: map<string, ServiceEntry>, after: map<string, ServiceEntry>)
    ensures TellsSoFar(before, after, [], [], {}, {})
  {}

  lemma AllTold(before: map<string, ServiceEntry>, after: map<string, ServiceEntry>, keys: seq<string>,
                updates: seq<ServiceUpdate>, lost: set<string>, done: set<string>)
    requires TellsSoFar(before, after, keys, updates, lost, done) && before.Keys + after.Keys <= done
    ensures Tells(before, after, keys, updates) && lost == ChangedKeys(before, after) - KeySet(keys)
  {}

  lemma OneLess(all: set<string>, at: set<string>, done: set<string>, todo: set<string>, k: string)
    requires k in todo && todo <= at <= all && at !! done
    ensures k in all && k !in done + (at - todo) && done + (at - (todo - {k})) == done + (at - todo) + {k}
  {}

  /** The keys that were added are all in `at`. */
  predicate Extends(keys: seq<string>, more: seq<string>, at: set<string>) {
    keys <= more && forall i :: |keys| <= i < |more| ==> more[i] in at
  }

  lemma ExtendsItself(keys: seq<string>, at: set<string>)
    ensures Extends(keys, keys, at)
  {}

  lemma ExtendsNext(keys: seq<string>, more: seq<string>, at: set<string>, k: string)
    requires Extends(keys, more, at) && k in at
    ensures Extends(keys, more + [k], at)
  {}

  lemma RemovalsFirst(removed: set<string>, kept: set<string>, keys: seq<string>, more: seq<string>)
    requires removed !! kept && Extends([], keys, removed) && Extends(keys, more, kept)
    ensures forall i, j :: 0 <= i < j < |more| && more[i] in kept ==> more[j] in kept
  {
    assert forall i :: 0 <= i < |keys| ==> more[i] == keys[i] && keys[i] in removed;
  }

  lemma NothingTold(services: map<string, ServiceEntry>)
    ensures Tells(map[], services, [], [])
  {}

  lemma TellRegistered(services: map<string, ServiceEntry>, keys: seq<string>, updates: seq<ServiceUpdate>, k: string)
    requires Tells(map[], services, keys, updates) && k in services && k !in KeySet(keys)
    ensures var u := ServiceUpdate(Registered, services[k].serviceType, services[k].node, Some(services[k]));
            Tells(map[], services, keys + [k], updates + [u])
    ensures KeySet(keys + [k]) == KeySet(keys) + {k}
  {
    assert UpdateFor(map[], services, k)
        == ServiceUpdate(Registered, services[k].serviceType, services[k].node, Some(services[k]));
    hide UpdateFor;
  }

  /** A snapshot is what a registry that was empty before would have broadcast. */
  lemma ExactAtFirst(services: map<string, ServiceEntry>, keys: seq<string>, updates: seq<ServiceUpdate>,
                     selector: Selector)
    requires KeyedAlike(services, services) && Tells(map[], services, keys, updates)
    requires forall k :: k in services && k !in keys ==> !Selects(services[k], selector)
    ensures IsExact(Replay(map[], updates, selector), services, selector)
  {
    hide ServiceMatches;
    assert WellKeyed(map[], services);
    assert IsExact(map[], map[], selector);
    ExactIffNothingMissed(map[], services, keys, updates, map[], selector);
    hide Replay;
    hide IsExact;
    hide Tells;
  }

  class TestClient {
    var state: TestState
    // Every update that was broadcast, how many of them the slowest subscriber has taken, and who listens.
    var log: seq<ServiceUpdate>
    var taken: nat
    var subscribers: nat

    ghost predicate Valid()
      reads this
    {
      taken <= |log| <= taken + CHANNEL_CAPACITY
    }

    /** The channel takes no update: nobody listens, or the slowest subscriber has not made room. */
    predicate Refuses()
      reads this
    {
      subscribers == 0 || |log| >= taken + CHANNEL_CAPACITY
    }

    constructor (state: TestState)
      ensures Valid() && this.state == state && log == [] && taken == 0 && subscribers == 0
    {
      this.state, log, taken, subscribers := state, [], 0, 0;
    }

    /** Broadcasts an update, or loses it when nobody listens or the channel is full. */
    method BroadcastOrLog(u: ServiceUpdate) returns (sent: bool)
      requires Valid()
      modifies this`log
      ensures Valid() && sent == !old(Refuses())
      ensures sent <==> subscribers > 0 && |old(log)| < taken + CHANNEL_CAPACITY
      ensures log == if sent then old(log) + [u] else old(log)
    {
      sent := !Refuses();
      if sent {
        log := log + [u];
      }
    }

    /** Tells of the change at a key, if there is one. */
    method BroadcastChange(before: map<string, ServiceEntry>, after: map<string, ServiceEntry>, k: string,
                           ghost keys: seq<string>, ghost updates: seq<ServiceUpdate>, ghost lost: set<string>,
                           ghost done: set<string>, ghost log0: seq<ServiceUpdate>)
      returns (ghost keys': seq<string>, ghost updates': seq<ServiceUpdate>, ghost lost': set<string>)
      requires Valid() && k in before.Keys + after.Keys && k !in done
      requires TellsSoFar(before, after, keys, updates, lost, done) && log == log0 + updates
      requires lost != {} ==> Refuses()
      modifies this`log
      ensures Valid() && TellsSoFar(before, after, keys', updates', lost', done + {k}) && log == log0 + updates'
      ensures keys' == keys || keys' == keys + [k]
      ensures lost' != {} ==> Refuses()
    {
      TellNext(before, after, keys, updates, lost, done, k);
      hide TellsSoFar;
      keys', updates', lost' := keys, updates, lost;
      if Changed(before, after, k) {
        var u := UpdateFor(before, after, k);
        var sent := BroadcastOrLog(u);
        if sent {
          keys', updates' := keys + [k], updates + [u];
          assert log0 + updates + [u] == log0 + (updates + [u]);
        } else {
          lost' := lost + {k};
        }
      }
    }

    /** Tells of the changes at some keys, one by one. */
    method BroadcastAt(before: map<string, ServiceEntry>, after: map<string, ServiceEntry>, at: set<string>,
                       ghost keys: seq<string>, ghost updates: seq<ServiceUpdate>, ghost lost: set<string>,
                       ghost done: set<string>, ghost log0: seq<ServiceUpdate>)
      returns (ghost keys': seq<string>, ghost updates': seq<ServiceUpdate>, ghost lost': set<string>)
      requires Valid() && at <= before.Keys + after.Keys && at !! done
      requires TellsSoFar(before, after, keys, updates, lost, done) && log == log0 + updates
      requires lost != {} ==> Refuses()
      modifies this`log
      ensures Valid() && TellsSoFar(before, after, keys', updates', lost', done + at) && log == log0 + updates'
      ensures Extends(keys, keys', at)
      ensures lost' != {} ==> Refuses()
    {
      hide TellsSoFar;
      hide Valid;
      hide Extends;
      ExtendsItself(keys, at);
      keys', updates', lost' := keys, updates, lost;
      var todo := at;
      assert done + (at - todo) == done;
      while todo != {}
        invariant todo <= at
        invariant Valid() && TellsSoFar(before, after, keys', updates', lost', done + (at - todo))
        invariant log == log0 + updates'
        invariant Extends(keys, keys', at)
        invariant lost' != {} ==> Refuses()
        decreases |todo|
      {
        var k :| k in todo;
        OneLess(before.Keys + after.Keys, at, done, todo, k);
        ExtendsNext(keys, keys', at, k);
        keys', updates', lost' := BroadcastChange(before, after, k, keys', updates', lost', done + (at - todo), log0);
        todo := todo - {k};
      }
      assert done + (at - {}) == done + at;
    }

    /**
     Broadcasts the registry entry changes between two states, removals first. Every change is told once or lost, and
     none is lost unless the channel fills up.
     */
    method BroadcastServiceChanges(before: map<string, ServiceEntry>, after: map<string, ServiceEntry>)
      returns (ghost keys: seq<string>, ghost updates: seq<ServiceUpdate>, ghost lost: set<string>)
      requires Valid()
      modifies this`log
      ensures Valid() && log == old(log) + updates && Tells(before, after, keys, updates)
      ensures lost == ChangedKeys(before, after) - KeySet(keys)
      ensures lost != {} ==> Refuses()
      ensures forall i, j :: 0 <= i < j < |keys| && keys[i] in after ==> keys[j] in after
    {
      hide TellsSoFar;
      hide Tells;
      hide ChangedKeys;
      UntoldYet(before, after);
      var removed := before.Keys - after.Keys;
      hide Extends;
      keys, updates, lost := BroadcastAt(before, after, removed, [], [], {}, {}, log);
      ghost var first := keys;
      keys, updates, lost := BroadcastAt(before, after, after.Keys, keys, updates, lost, {} + removed, old(log));
      AllTold(before, after, keys, updates, lost, {} + removed + after.Keys);
      RemovalsFirst(removed, after.Keys, first, keys);
    }

    /**
     Executes a transaction, given what the mutator makes of it. A submission that fails, or that removes what must not
     be removed, changes nothing and tells nobody; any other tells of every service change, as far as the channel
     takes it.
     */
    method SimulateTxExecution(submission: Submission)
      returns (r: Result<(), TxError>, ghost keys: seq<string>, ghost updates: seq<ServiceUpdate>,
               ghost lost: set<string>)
      requires Valid()
      modifies this`state, this`log
      ensures Valid() && r == Verdict(old(state), submission)
      ensures Submitted(old(state), submission, state, keys, updates) && log == old(log) + updates
      ensures lost == ChangedKeys(old(state).services, state.services) - KeySet(keys)
      ensures lost != {} ==> Refuses()
    {
      hide Tells;
      var before := state;
      keys, updates, lost := [], [], {};
      NothingChanged(before.services);
      hide ChangedKeys;
      assert log + [] == log;
      state := submission.mutated;
      if submission.failed {
        state := before;
        return Failure(MutatorFailed), keys, updates, lost;
      }
      var shrunk := FirstShrunk(before, state);
      if shrunk.Some? {
        state := before;
        return Failure(CannotRemove(shrunk.value)), keys, updates, lost;
      }
      keys, updates, lost := BroadcastServiceChanges(before.services, state.services);
      return Success(()), keys, updates, lost;
    }

    /** The updates a new subscription starts with: they make an exact replica of the registry as it is. */
    method InitialUpdates(selector: Selector) returns (initial: seq<ServiceUpdate>)
      requires KeyedAlike(state.services, state.services)
      ensures IsExact(Replay(map[], initial, selector), state.services, selector)
      ensures forall u :: u in initial ==> u.kind.Registered? && ServiceMatches(u.serviceType, u.node, selector)
    {
      hide Tells;
      hide ServiceMatches;
      var todo := state.services.Keys;
      ghost var keys: seq<string> := [];
      initial := [];
      NothingTold(state.services);
      while todo != {}
        invariant todo <= state.services.Keys
        invariant Tells(map[], state.services, keys, initial)
        invariant KeySet(keys) !! todo
        invariant forall u :: u in initial ==> u.kind.Registered? && ServiceMatches(u.serviceType, u.node, selector)
        invariant forall k :: k in state.services.Keys - todo && k !in keys ==> !Selects(state.services[k], selector)
        decreases |todo|
      {
        var k :| k in todo;
        var entry := state.services[k];
        if ServiceMatches(entry.serviceType, entry.node, selector) {
          var u := ServiceUpdate(Registered, entry.serviceType, entry.node, Some(entry));
          TellRegistered(state.services, keys, initial, k);
          initial := initial + [u];
          keys := keys + [k];
        }
        todo := todo - {k};
      }
      ExactAtFirst(state.services, keys, initial, selector);
    }

    /** Subscribes: the stream starts with the registry as it is and goes on with what is broadcast from now on. */
    method SubscribeServices(selector: Selector) returns (initial: seq<ServiceUpdate>, position: nat)
      requires Valid() && KeyedAlike(state.services, state.services)
      modifies this`subscribers, this`taken
      ensures Valid() && subscribers == old(subscribers) + 1 && position == |log|
      ensures taken == if old(subscribers) == 0 then |log| else old(taken)
      ensures IsExact(Replay(map[], initial, selector), state.services, selector)
      ensures forall u :: u in initial ==> u.kind.Registered? && ServiceMatches(u.serviceType, u.node, selector)
    {
      initial := InitialUpdates(selector);
      position := |log|;
      if subscribers == 0 {
        taken := |log|;
      }
      subscribers := subscribers + 1;
    }
  }
}
