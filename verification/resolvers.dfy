/**
 * The packet-dispatch registry shared by the server and the client
 * (`ResolverManager`, `ResolverBinder` and `subArray`). The class is written
 * three times in the source, in src/server/socket.ts, src/server/server.ts and
 * src/public/socket.ts, with identical bodies; it is modelled once here.
 *
 * A registry is a list of (main, sub, receiver) entries. Receivers are
 * JavaScript closures; the model identifies each by a `Callback` handle, and
 * "calling" a receiver is returning its handle in invocation order.
 */
module Resolvers {
  import opened Options

  /** A callback the program registers; `NoOp` is the source's `() => { }`. */
  datatype Callback = NoOp | Handler(id: nat)

  datatype Entry = Entry(main: int, sub: int, receiver: Callback)

  /** The channel numbers `system`, `game` and `debug` bind. */
  const SystemChannel: int := 0x00
  const GameChannel: int := 0x01
  const DebugChannel: int := 0x02

  predicate HasKey(e: Entry, main: int, sub: int) {
    e.main == main && e.sub == sub
  }

  /** No two entries share a (main, sub) key. */
  predicate KeysUnique(s: seq<Entry>) {
    forall i, j :: 0 <= i < j < |s| ==> !HasKey(s[j], s[i].main, s[i].sub)
  }

  /** The index of the first entry with key (main, sub), or -1. */
  function FindIndex(s: seq<Entry>, main: int, sub: int): (i: int)
    ensures -1 <= i < |s|
    ensures i == -1 <==> forall j :: 0 <= j < |s| ==> !HasKey(s[j], main, sub)
    ensures 0 <= i ==> HasKey(s[i], main, sub) && forall j :: 0 <= j < i ==> !HasKey(s[j], main, sub)
  {
    if |s| == 0 then -1
    else if HasKey(s[0], main, sub) then 0
    else
      var k := FindIndex(s[1..], main, sub);
      if k == -1 then -1 else k + 1
  }

  /** An index with a match and none before it is the one FindIndex returns. */
  lemma FirstMatch(s: seq<Entry>, main: int, sub: int, i: int)
    requires 0 <= i < |s| && HasKey(s[i], main, sub)
    requires forall j :: 0 <= j < i ==> !HasKey(s[j], main, sub)
    ensures FindIndex(s, main, sub) == i
  {
  }

  /** The receiver of the first entry with key (main, sub). */
  function Lookup(s: seq<Entry>, main: int, sub: int): Option<Callback> {
    var i := FindIndex(s, main, sub);
    if i == -1 then None else Some(s[i].receiver)
  }

  /** What `set` does to the list: overwrite the first match, or append. */
  function Upsert(s: seq<Entry>, main: int, sub: int, receiver: Callback): seq<Entry> {
    var i := FindIndex(s, main, sub);
    if i == -1 then s + [Entry(main, sub, receiver)] else s[i := s[i].(receiver := receiver)]
  }

  /** What `unset` does to the list: splice out the first match, if any. */
  function RemoveFirst(s: seq<Entry>, main: int, sub: int): seq<Entry> {
    var i := FindIndex(s, main, sub);
    if i == -1 then s else s[..i] + s[i + 1..]
  }

  /** The receivers `call` invokes: those of every entry whose key matches, in list order. */
  function Matching(s: seq<Entry>, main: int, sub: int): seq<Callback> {
    if |s| == 0 then []
    else
      var last := s[|s| - 1];
      Matching(s[..|s| - 1], main, sub) + (if HasKey(last, main, sub) then [last.receiver] else [])
  }

  // ---------------------------------------------------------------------
  // Properties of the list operations
  // ---------------------------------------------------------------------

  /** With unique keys, a lookup finds exactly the entry that is in the list. */
  lemma {:induction false} LookupUnique(s: seq<Entry>, main: int, sub: int, r: Callback)
    requires KeysUnique(s)
    ensures Lookup(s, main, sub) == Some(r) <==> Entry(main, sub, r) in s
  {
    var i := FindIndex(s, main, sub);
    if Entry(main, sub, r) in s {
      var j :| 0 <= j < |s| && s[j] == Entry(main, sub, r);
      assert i != -1 by {
        assert HasKey(s[j], main, sub);
      }
      if i < j {
        assert HasKey(s[j], s[i].main, s[i].sub);
      }
      assert i == j;
    }
  }

  /**
   * `set` is an upsert: an existing key keeps its position and only its
   * receiver changes; a new key is appended.
   */
  lemma UpsertShape(s: seq<Entry>, main: int, sub: int, receiver: Callback)
    ensures var r := Upsert(s, main, sub, receiver);
      (exists j :: 0 <= j < |s| && HasKey(s[j], main, sub)) ==>
        |r| == |s| && exists i :: 0 <= i < |s| && HasKey(s[i], main, sub) && r == s[i := Entry(main, sub, receiver)]
    ensures (forall j :: 0 <= j < |s| ==> !HasKey(s[j], main, sub)) ==>
      Upsert(s, main, sub, receiver) == s + [Entry(main, sub, receiver)]
  {
  }

  /** After `set`, the key holds the new receiver and every other key is untouched. */
  lemma {:induction false} UpsertLookup(s: seq<Entry>, main: int, sub: int, receiver: Callback)
    ensures Lookup(Upsert(s, main, sub, receiver), main, sub) == Some(receiver)
    ensures forall m, n :: !(m == main && n == sub) ==>
      Lookup(Upsert(s, main, sub, receiver), m, n) == Lookup(s, m, n)
  {
    var r := Upsert(s, main, sub, receiver);
    var i := FindIndex(s, main, sub);
    assert forall j :: 0 <= j < |s| ==> r[j].main == s[j].main && r[j].sub == s[j].sub;
    if i == -1 {
      FirstMatch(r, main, sub, |s|);
    } else {
      FirstMatch(r, main, sub, i);
    }
    forall m, n | !(m == main && n == sub)
      ensures Lookup(r, m, n) == Lookup(s, m, n)
    {
      var k := FindIndex(s, m, n);
      if k == -1 {
        assert forall j :: 0 <= j < |r| ==> !HasKey(r[j], m, n) by {
          if i == -1 {
            assert !HasKey(r[|s|], m, n);
          }
        }
      } else {
        assert r[k] == s[k];
        FirstMatch(r, m, n, k);
      }
    }
  }

  /** `set` keeps at most one entry per key. */
  lemma {:induction false} UpsertUnique(s: seq<Entry>, main: int, sub: int, receiver: Callback)
    requires KeysUnique(s)
    ensures KeysUnique(Upsert(s, main, sub, receiver))
  {
    var r := Upsert(s, main, sub, receiver);
    var i := FindIndex(s, main, sub);
    forall a, b | 0 <= a < b < |r|
      ensures !HasKey(r[b], r[a].main, r[a].sub)
    {
      if i == -1 && b == |s| {
        assert !HasKey(s[a], main, sub);
      } else {
        assert r[a].main == s[a].main && r[a].sub == s[a].sub;
        assert r[b].main == s[b].main && r[b].sub == s[b].sub;
      }
    }
  }

  /**
   * `unset` removes only the first matching entry and keeps the rest in
   * order; with the key absent the list is unchanged.
   */
  lemma RemoveFirstShape(s: seq<Entry>, main: int, sub: int)
    ensures (forall j :: 0 <= j < |s| ==> !HasKey(s[j], main, sub)) ==> RemoveFirst(s, main, sub) == s
    ensures forall i :: 0 <= i < |s| && HasKey(s[i], main, sub) && (forall j :: 0 <= j < i ==> !HasKey(s[j], main, sub)) ==>
      RemoveFirst(s, main, sub) == s[..i] + s[i + 1..]
  {
  }

  /** After `unset` on a list with unique keys, the key is gone and every other key is untouched. */
  lemma {:induction false} RemoveFirstLookup(s: seq<Entry>, main: int, sub: int)
    requires KeysUnique(s)
    ensures KeysUnique(RemoveFirst(s, main, sub))
    ensures Lookup(RemoveFirst(s, main, sub), main, sub) == None
    ensures forall m, n :: !(m == main && n == sub) ==>
      Lookup(RemoveFirst(s, main, sub), m, n) == Lookup(s, m, n)
  {
    RemoveFirstUnique(s, main, sub);
    RemoveFirstMisses(s, main, sub);
    forall m, n | !(m == main && n == sub)
      ensures Lookup(RemoveFirst(s, main, sub), m, n) == Lookup(s, m, n)
    {
      RemoveFirstKeeps(s, main, sub, m, n);
    }
  }

  /** Splicing out index i shifts the later entries down by one. */
  lemma SpliceShifts(s: seq<Entry>, i: int)
    requires 0 <= i < |s|
    ensures |s[..i] + s[i + 1..]| == |s| - 1
    ensures forall j :: 0 <= j < |s| - 1 ==> (s[..i] + s[i + 1..])[j] == (if j < i then s[j] else s[j + 1])
  {
  }

  lemma {:induction false} RemoveFirstUnique(s: seq<Entry>, main: int, sub: int)
    requires KeysUnique(s)
    ensures KeysUnique(RemoveFirst(s, main, sub))
  {
    var r := RemoveFirst(s, main, sub);
    var i := FindIndex(s, main, sub);
    if i != -1 {
      SpliceShifts(s, i);
      forall a, b | 0 <= a < b < |r|
        ensures !HasKey(r[b], r[a].main, r[a].sub)
      {
        var a', b' := if a < i then a else a + 1, if b < i then b else b + 1;
        assert r[a] == s[a'] && r[b] == s[b'];
      }
    }
  }

  lemma {:induction false} RemoveFirstMisses(s: seq<Entry>, main: int, sub: int)
    requires KeysUnique(s)
    ensures Lookup(RemoveFirst(s, main, sub), main, sub) == None
  {
    var r := RemoveFirst(s, main, sub);
    var i := FindIndex(s, main, sub);
    if i != -1 {
      SpliceShifts(s, i);
      forall j | 0 <= j < |r|
        ensures !HasKey(r[j], main, sub)
      {
        var j' := if j < i then j else j + 1;
        assert r[j] == s[j'];
      }
    }
  }

  lemma {:induction false} RemoveFirstKeeps(s: seq<Entry>, main: int, sub: int, m: int, n: int)
    requires !(m == main && n == sub)
    ensures Lookup(RemoveFirst(s, main, sub), m, n) == Lookup(s, m, n)
  {
    var r := RemoveFirst(s, main, sub);
    var i := FindIndex(s, main, sub);
    if i != -1 {
      SpliceShifts(s, i);
      var k := FindIndex(s, m, n);
      if k == -1 {
        assert forall j :: 0 <= j < |r| ==> !HasKey(r[j], m, n);
      } else {
        assert k != i;
        var k' := if k < i then k else k - 1;
        assert r[k'] == s[k];
        FirstMatch(r, m, n, k');
      }
    }
  }

  /** `call` invokes exactly the receivers whose key matches, and with unique keys at most one. */
  lemma {:induction false} MatchingMembers(s: seq<Entry>, main: int, sub: int)
    ensures forall c :: c in Matching(s, main, sub) <==> Entry(main, sub, c) in s
    ensures KeysUnique(s) ==> |Matching(s, main, sub)| <= 1
    decreases |s|
  {
    if |s| > 0 {
      var init := s[..|s| - 1];
      var last := s[|s| - 1];
      MatchingMembers(init, main, sub);
      assert s == init + [last];
      if KeysUnique(s) {
        assert KeysUnique(init) by {
          forall a, b | 0 <= a < b < |init|
            ensures !HasKey(init[b], init[a].main, init[a].sub)
          {
            assert init[a] == s[a] && init[b] == s[b];
          }
        }
        var m := Matching(init, main, sub);
        assert |m| <= 1;
        if HasKey(last, main, sub) && |m| == 1 {
          assert m[0] in m;
        }
        assert |Matching(s, main, sub)| <= 1;
      }
    }
  }

  /** With unique keys, `call` invokes the looked-up receiver and nothing else. */
  lemma {:induction false} MatchingIsLookup(s: seq<Entry>, main: int, sub: int)
    requires KeysUnique(s)
    ensures Matching(s, main, sub) == (match Lookup(s, main, sub) case None => [] case Some(r) => [r])
  {
    MatchingMembers(s, main, sub);
    var l := Lookup(s, main, sub);
    var m := Matching(s, main, sub);
    if l.Some? {
      LookupUnique(s, main, sub, l.value);
      assert l.value in m;
      assert m == [l.value];
    } else if |m| == 1 {
      assert m[0] in m;
      LookupUnique(s, main, sub, m[0]);
    }
  }

  // ---------------------------------------------------------------------
  // Binding many subs at once
  // ---------------------------------------------------------------------

  /** `ResolverBinder.do(callback)`: `set(main, sub, callback)` for each sub in order. */
  function UpsertAll(s: seq<Entry>, main: int, subs: seq<int>, receiver: Callback): seq<Entry>
    decreases |subs|
  {
    if |subs| == 0 then s
    else UpsertAll(Upsert(s, main, subs[0], receiver), main, subs[1..], receiver)
  }

  /** Registering one more sub after a list is one more `set`. */
  lemma {:induction false} UpsertAllSnoc(s: seq<Entry>, main: int, subs: seq<int>, sub: int, receiver: Callback)
    ensures UpsertAll(s, main, subs + [sub], receiver) == Upsert(UpsertAll(s, main, subs, receiver), main, sub, receiver)
    decreases |subs|
  {
    if |subs| == 0 {
      assert (subs + [sub])[1..] == [];
    } else {
      assert (subs + [sub])[1..] == subs[1..] + [sub];
      UpsertAllSnoc(Upsert(s, main, subs[0], receiver), main, subs[1..], sub, receiver);
    }
  }

  /** The list variant of `do`: for each sub, `set` each receiver in turn. */
  function UpsertEach(s: seq<Entry>, main: int, subs: seq<int>, receivers: seq<Callback>): seq<Entry>
    decreases |subs|
  {
    if |subs| == 0 then s
    else UpsertEach(UpsertReceivers(s, main, subs[0], receivers), main, subs[1..], receivers)
  }

  /** The inner loop of the list variant: `set(main, sub, r)` for each receiver r. */
  function UpsertReceivers(s: seq<Entry>, main: int, sub: int, receivers: seq<Callback>): seq<Entry>
    decreases |receivers|
  {
    if |receivers| == 0 then s
    else UpsertReceivers(Upsert(s, main, sub, receivers[0]), main, sub, receivers[1..])
  }

  /** `ResolverBinder.ignore`: `unset(main, sub)` for each sub in order. */
  function RemoveAll(s: seq<Entry>, main: int, subs: seq<int>): seq<Entry>
    decreases |subs|
  {
    if |subs| == 0 then s
    else RemoveAll(RemoveFirst(s, main, subs[0]), main, subs[1..])
  }

  /** Two `set`s on the same key: the second wins. */
  lemma {:induction false} UpsertTwice(s: seq<Entry>, main: int, sub: int, r1: Callback, r2: Callback)
    ensures Upsert(Upsert(s, main, sub, r1), main, sub, r2) == Upsert(s, main, sub, r2)
  {
    var i := FindIndex(s, main, sub);
    var t := Upsert(s, main, sub, r1);
    if i == -1 {
      assert t == s + [Entry(main, sub, r1)];
      assert forall j :: 0 <= j < |s| ==> t[j] == s[j];
      FirstMatch(t, main, sub, |s|);
      assert t[|s| := Entry(main, sub, r2)] == s + [Entry(main, sub, r2)];
    } else {
      assert forall j :: 0 <= j < |s| && j != i ==> t[j] == s[j];
      FirstMatch(t, main, sub, i);
      assert t[i := t[i].(receiver := r2)] == s[i := s[i].(receiver := r2)];
    }
  }

  /** Setting several receivers on one key leaves the last one registered. */
  lemma {:induction false} UpsertReceiversLast(s: seq<Entry>, main: int, sub: int, receivers: seq<Callback>)
    requires |receivers| > 0
    ensures UpsertReceivers(s, main, sub, receivers) == Upsert(s, main, sub, receivers[|receivers| - 1])
    decreases |receivers|
  {
    if |receivers| > 1 {
      UpsertReceiversLast(Upsert(s, main, sub, receivers[0]), main, sub, receivers[1..]);
      UpsertTwice(s, main, sub, receivers[0], receivers[|receivers| - 1]);
    }
  }

  /** `do([r])` is `do(r)`: a single receiver is wrapped into a one-element list. */
  lemma {:induction false} UpsertEachSingle(s: seq<Entry>, main: int, subs: seq<int>, receiver: Callback)
    ensures UpsertEach(s, main, subs, [receiver]) == UpsertAll(s, main, subs, receiver)
    decreases |subs|
  {
    if |subs| > 0 {
      UpsertReceiversLast(s, main, subs[0], [receiver]);
      UpsertEachSingle(Upsert(s, main, subs[0], receiver), main, subs[1..], receiver);
    }
  }

  /** With a non-empty list, the list variant of `do` is `do` with the list's last receiver. */
  lemma {:induction false} UpsertEachLast(s: seq<Entry>, main: int, subs: seq<int>, receivers: seq<Callback>)
    requires |receivers| > 0
    ensures UpsertEach(s, main, subs, receivers) == UpsertAll(s, main, subs, receivers[|receivers| - 1])
    decreases |subs|
  {
    if |subs| > 0 {
      UpsertReceiversLast(s, main, subs[0], receivers);
      UpsertEachLast(UpsertReceivers(s, main, subs[0], receivers), main, subs[1..], receivers);
    }
  }

  /** With an empty list, the list variant of `do` registers nothing. */
  lemma {:induction false} UpsertEachEmpty(s: seq<Entry>, main: int, subs: seq<int>)
    ensures UpsertEach(s, main, subs, []) == s
    decreases |subs|
  {
    if |subs| > 0 {
      UpsertEachEmpty(s, main, subs[1..]);
    }
  }

  /**
   * After `do(callback)`, every listed sub of the channel is bound to the
   * callback, every other key keeps its receiver, and keys stay unique.
   */
  lemma {:induction false} UpsertAllLookup(s: seq<Entry>, main: int, subs: seq<int>, receiver: Callback)
    ensures forall n :: n in subs ==> Lookup(UpsertAll(s, main, subs, receiver), main, n) == Some(receiver)
    ensures forall m, n :: !(m == main && n in subs) ==>
      Lookup(UpsertAll(s, main, subs, receiver), m, n) == Lookup(s, m, n)
    ensures KeysUnique(s) ==> KeysUnique(UpsertAll(s, main, subs, receiver))
    decreases |subs|
  {
    if |subs| > 0 {
      var t := Upsert(s, main, subs[0], receiver);
      UpsertLookup(s, main, subs[0], receiver);
      UpsertAllLookup(t, main, subs[1..], receiver);
      if KeysUnique(s) {
        UpsertUnique(s, main, subs[0], receiver);
      }
      forall n | n in subs
        ensures Lookup(UpsertAll(s, main, subs, receiver), main, n) == Some(receiver)
      {
        if n !in subs[1..] {
          assert n == subs[0];
        }
      }
    }
  }

  /**
   * After `ignore()` on a list with unique keys, none of the listed subs of
   * the channel is bound and every other key keeps its receiver.
   */
  lemma {:induction false} RemoveAllLookup(s: seq<Entry>, main: int, subs: seq<int>)
    requires KeysUnique(s)
    ensures KeysUnique(RemoveAll(s, main, subs))
    ensures forall n :: n in subs ==> Lookup(RemoveAll(s, main, subs), main, n) == None
    ensures forall m, n :: !(m == main && n in subs) ==> Lookup(RemoveAll(s, main, subs), m, n) == Lookup(s, m, n)
    decreases |subs|
  {
    if |subs| > 0 {
      var t := RemoveFirst(s, main, subs[0]);
      RemoveFirstLookup(s, main, subs[0]);
      RemoveAllLookup(t, main, subs[1..]);
      forall n | n in subs
        ensures Lookup(RemoveAll(s, main, subs), main, n) == None
      {
        if n !in subs[1..] {
          assert n == subs[0];
        }
      }
    }
  }

  // ---------------------------------------------------------------------
  // The registry object
  // ---------------------------------------------------------------------

  class ResolverManager {
    var resolvers: seq<Entry>

    /** The invariant every `set` and `unset` keeps. */
    ghost predicate Valid()
      reads this
    {
      KeysUnique(resolvers)
    }

    constructor()
      ensures resolvers == [] && Valid()
    {
      resolvers := [];
    }

    method Set(main: int, sub: int, receiver: Callback)
      modifies this
      ensures resolvers == Upsert(old(resolvers), main, sub, receiver)
      ensures old(Valid()) ==> Valid()
    {
      if Valid() {
        UpsertUnique(resolvers, main, sub, receiver);
      }
      var i := 0;
      while i < |resolvers|
        invariant 0 <= i <= |resolvers|
        invariant forall j :: 0 <= j < i ==> !HasKey(resolvers[j], main, sub)
      {
        if HasKey(resolvers[i], main, sub) {
          FirstMatch(resolvers, main, sub, i);
          resolvers := resolvers[i := resolvers[i].(receiver := receiver)];
          return;
        }
        i := i + 1;
      }
      resolvers := resolvers + [Entry(main, sub, receiver)];
    }

    method Unset(main: int, sub: int)
      modifies this
      ensures resolvers == RemoveFirst(old(resolvers), main, sub)
      ensures old(Valid()) ==> Valid()
    {
      if Valid() {
        RemoveFirstUnique(resolvers, main, sub);
      }
      var i := 0;
      while i < |resolvers|
        invariant 0 <= i <= |resolvers|
        invariant forall j :: 0 <= j < i ==> !HasKey(resolvers[j], main, sub)
      {
        if HasKey(resolvers[i], main, sub) {
          FirstMatch(resolvers, main, sub, i);
          resolvers := resolvers[..i] + resolvers[i + 1..];
          return;
        }
        i := i + 1;
      }
    }

    /** Returns the receivers invoked, in invocation order. */
    method Call(main: int, sub: int) returns (invoked: seq<Callback>)
      ensures invoked == Matching(resolvers, main, sub)
    {
      invoked := [];
      var i := 0;
      while i < |resolvers|
        invariant 0 <= i <= |resolvers|
        invariant invoked == Matching(resolvers[..i], main, sub)
      {
        assert resolvers[..i + 1][..i] == resolvers[..i];
        if HasKey(resolvers[i], main, sub) {
          invoked := invoked + [resolvers[i].receiver];
        }
        i := i + 1;
      }
      assert resolvers[..i] == resolvers;
    }
  }

  /** `subArray`: a single sub number becomes a one-element list. */
  datatype SubSpec = OneSub(sub: int) | ManySubs(subs: seq<int>)

  function SubArray(raw: SubSpec): (r: seq<int>)
    ensures raw.OneSub? ==> r == [raw.sub]
    ensures raw.ManySubs? ==> r == raw.subs
  {
    match raw
    case OneSub(sub) => [sub]
    case ManySubs(subs) => subs
  }

  /** The list variant of `do` takes one receiver or a list of them. */
  datatype ReceiverSpec = OneReceiver(receiver: Callback) | ManyReceivers(receivers: seq<Callback>)

  /** A channel number and its subs, bound to one registry. */
  class ResolverBinder {
    const manager: ResolverManager
    const main: int
    const subs: seq<int>

    constructor(manager: ResolverManager, main: int, subs: seq<int>)
      ensures this.manager == manager && this.main == main && this.subs == subs
    {
      this.manager := manager;
      this.main := main;
      this.subs := subs;
    }

    /** `do(callback)`: registers the callback for every sub. */
    method Do(callback: Callback)
      modifies manager
      ensures manager.resolvers == UpsertAll(old(manager.resolvers), main, subs, callback)
      ensures old(manager.Valid()) ==> manager.Valid()
    {
      ghost var start := manager.resolvers;
      var k := 0;
      while k < |subs|
        invariant 0 <= k <= |subs|
        invariant manager.resolvers == UpsertAll(start, main, subs[..k], callback)
        invariant old(manager.Valid()) ==> manager.Valid()
      {
        assert subs[..k + 1] == subs[..k] + [subs[k]];
        UpsertAllSnoc(start, main, subs[..k], subs[k], callback);
        manager.Set(main, subs[k], callback);
        k := k + 1;
      }
      assert subs[..k] == subs;
    }

    /** The list variant: for each sub, sets each receiver in turn. */
    method DoEach(callback: ReceiverSpec)
      modifies manager
      ensures callback.ManyReceivers? ==>
        manager.resolvers == UpsertEach(old(manager.resolvers), main, subs, callback.receivers)
      ensures callback.OneReceiver? ==>
        manager.resolvers == UpsertEach(old(manager.resolvers), main, subs, [callback.receiver])
      ensures old(manager.Valid()) ==> manager.Valid()
    {
      var receivers := match callback case ManyReceivers(rs) => rs case OneReceiver(r) => [r];
      ghost var start := manager.resolvers;
      var k := 0;
      while k < |subs|
        invariant 0 <= k <= |subs|
        invariant UpsertEach(start, main, subs, receivers) == UpsertEach(manager.resolvers, main, subs[k..], receivers)
        invariant old(manager.Valid()) ==> manager.Valid()
      {
        assert subs[k..][1..] == subs[k + 1..];
        SetReceivers(subs[k], receivers);
        k := k + 1;
      }
    }

    /** The inner loop of the list variant: sets each receiver in turn on one sub. */
    method SetReceivers(sub: int, receivers: seq<Callback>)
      modifies manager
      ensures manager.resolvers == UpsertReceivers(old(manager.resolvers), main, sub, receivers)
      ensures old(manager.Valid()) ==> manager.Valid()
    {
      ghost var before := manager.resolvers;
      var j := 0;
      while j < |receivers|
        invariant 0 <= j <= |receivers|
        invariant UpsertReceivers(before, main, sub, receivers) ==
                  UpsertReceivers(manager.resolvers, main, sub, receivers[j..])
        invariant old(manager.Valid()) ==> manager.Valid()
      {
        assert receivers[j..][1..] == receivers[j + 1..];
        manager.Set(main, sub, receivers[j]);
        j := j + 1;
      }
    }

    /** `ignore()`: unsets every sub of the binder and nothing else. */
    method Ignore()
      modifies manager
      ensures manager.resolvers == RemoveAll(old(manager.resolvers), main, subs)
      ensures old(manager.Valid()) ==> manager.Valid()
    {
      ghost var start := manager.resolvers;
      var k := 0;
      while k < |subs|
        invariant 0 <= k <= |subs|
        invariant RemoveAll(start, main, subs) == RemoveAll(manager.resolvers, main, subs[k..])
        invariant old(manager.Valid()) ==> manager.Valid()
      {
        assert subs[k..][1..] == subs[k + 1..];
        manager.Unset(main, subs[k]);
        k := k + 1;
      }
    }
  }
}
