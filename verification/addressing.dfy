/**
 * Client addressing on the server: the live client set, `ClientProperty`
 * (`select` and `exist`) and `SendSelector.to`. src/server/socket.ts and
 * src/server/server.ts carry identical copies; this is the one model of both.
 */
module Addressing {
  import opened Options
  import opened Framing

  /** `Client = number`: a connection id. */
  type Client = int

  /** The three shapes a selection can take. */
  datatype Selection = Single(client: Client) | Listed(clients: seq<Client>) | Where(selector: Client -> bool)

  /** A packet handed to the `out` sink. */
  datatype DataPacket = DataPacket(client: Client, data: seq<byte>)

  predicate NoDuplicates(s: seq<Client>) {
    forall i, j :: 0 <= i < j < |s| ==> s[i] != s[j]
  }

  /** `s` with every occurrence of `c` removed. */
  function Without(s: seq<Client>, c: Client): (r: seq<Client>)
    ensures forall x :: x in r <==> x in s && x != c
    ensures NoDuplicates(s) ==> NoDuplicates(r)
    ensures c !in s ==> r == s
  {
    if |s| == 0 then []
    else
      var init := s[..|s| - 1];
      var rest := Without(init, c);
      var last := s[|s| - 1];
      assert s == init + [last];
      assert NoDuplicates(s) ==> NoDuplicates(init) && last !in init by {
        if NoDuplicates(s) {
          assert forall i :: 0 <= i < |init| ==> init[i] == s[i];
        }
      }
      rest + (if last == c then [] else [last])
  }

  /** The listed clients that are live, in list order, duplicates kept. */
  function Present(clients: seq<Client>, live: seq<Client>): seq<Client> {
    if |clients| == 0 then []
    else
      var last := clients[|clients| - 1];
      Present(clients[..|clients| - 1], live) + (if last in live then [last] else [])
  }

  /** The live clients the selector rejects: `filter(client => !selector(client))`. */
  function Rejected(live: seq<Client>, selector: Client -> bool): seq<Client> {
    if |live| == 0 then []
    else
      var last := live[|live| - 1];
      Rejected(live[..|live| - 1], selector) + (if !selector(last) then [last] else [])
  }

  /** What `select` returns for each shape of selection. */
  function Selected(live: seq<Client>, selection: Selection): seq<Client> {
    match selection
    case Listed(clients) => Present(clients, live)
    case Where(selector) => Rejected(live, selector)
    case Single(client) => [client]
  }

  /**
   * A listed selection keeps exactly the live ids, and it is the whole list
   * exactly when every listed id is live.
   */
  lemma {:induction false} PresentMembers(clients: seq<Client>, live: seq<Client>)
    ensures forall c :: c in Present(clients, live) <==> c in clients && c in live
    ensures (forall c :: c in clients ==> c in live) <==> Present(clients, live) == clients
    ensures |Present(clients, live)| <= |clients|
    decreases |clients|
  {
    if |clients| > 0 {
      var init := clients[..|clients| - 1];
      var last := clients[|clients| - 1];
      PresentMembers(init, live);
      assert clients == init + [last];
      if Present(clients, live) == clients {
        assert Present(init, live) + (if last in live then [last] else []) == init + [last];
        assert last in live;
        assert Present(init, live) == init;
      }
    }
  }

  /** Each live id is kept as often as it is listed: duplicates survive. */
  lemma {:induction false} PresentCounts(clients: seq<Client>, live: seq<Client>)
    ensures forall c :: multiset(Present(clients, live))[c] == if c in live then multiset(clients)[c] else 0
    decreases |clients|
  {
    if |clients| > 0 {
      var init := clients[..|clients| - 1];
      var last := clients[|clients| - 1];
      PresentCounts(init, live);
      assert clients == init + [last];
      assert multiset(clients) == multiset(init) + multiset{last};
    }
  }

  /** A predicate selection is exactly the live clients the predicate is false for. */
  lemma {:induction false} RejectedProperties(live: seq<Client>, selector: Client -> bool)
    ensures forall c :: c in Rejected(live, selector) <==> c in live && !selector(c)
    ensures NoDuplicates(live) ==> NoDuplicates(Rejected(live, selector))
    decreases |live|
  {
    if |live| > 0 {
      var init := live[..|live| - 1];
      var last := live[|live| - 1];
      RejectedProperties(init, selector);
      assert live == init + [last];
      assert forall c :: c in live <==> c in init || c == last;
      if NoDuplicates(live) {
        assert NoDuplicates(init) by {
          forall i, j | 0 <= i < j < |init|
            ensures init[i] != init[j]
          {
            assert init[i] == live[i] && init[j] == live[j];
          }
        }
        assert last !in init by {
          forall i | 0 <= i < |init|
            ensures init[i] != last
          {
            assert init[i] == live[i];
          }
        }
      }
    }
  }

  /** The live client set. A JavaScript `Set` iterates in insertion order, so it is a list without repeats. */
  class ClientSet {
    var members: seq<Client>

    ghost predicate Valid()
      reads this
    {
      NoDuplicates(members)
    }

    constructor()
      ensures members == [] && Valid()
    {
      members := [];
    }

    /** `add`: a new client goes to the end; an existing one keeps its place. */
    method Add(c: Client)
      modifies this
      ensures members == if c in old(members) then old(members) else old(members) + [c]
      ensures old(Valid()) ==> Valid()
    {
      if c !in members {
        members := members + [c];
      }
    }

    /** `delete`. */
    method Delete(c: Client)
      modifies this
      ensures members == Without(old(members), c)
      ensures old(Valid()) ==> Valid()
    {
      members := Without(members, c);
    }
  }

  /** `exist` takes one id or a list of ids. */
  datatype ExistQuery = ExistOne(client: Client) | ExistMany(clients: seq<Client>)

  class ClientProperty {
    const clients: ClientSet

    constructor(clients: ClientSet)
      ensures this.clients == clients
    {
      this.clients := clients;
    }

    method Select(selection: Selection) returns (result: seq<Client>)
      ensures result == Selected(clients.members, selection)
    {
      result := [];
      var live := clients.members;
      match selection
      case Listed(listed) =>
        var i := 0;
        while i < |listed|
          invariant 0 <= i <= |listed|
          invariant result == Present(listed[..i], live)
        {
          assert listed[..i + 1][..i] == listed[..i];
          if listed[i] in live {
            result := result + [listed[i]];
          }
          i := i + 1;
        }
        assert listed[..i] == listed;
      case Where(selector) =>
        var i := 0;
        while i < |live|
          invariant 0 <= i <= |live|
          invariant result == Rejected(live[..i], selector)
        {
          assert live[..i + 1][..i] == live[..i];
          if !selector(live[i]) {
            result := result + [live[i]];
          }
          i := i + 1;
        }
        assert live[..i] == live;
      case Single(client) =>
        result := [client];
    }

    /**
     * `exist`: on a list, whether every listed id is live. On a single id the
     * source recurses on `[id]` but discards the answer, so it returns
     * undefined, here `None`.
     */
    method Exist(query: ExistQuery) returns (r: Option<bool>)
      ensures query.ExistMany? ==> r == Some(forall c :: c in query.clients ==> c in clients.members)
      ensures query.ExistOne? ==> r == None
    {
      match query
      case ExistOne(_) =>
        r := None;
      case ExistMany(listed) =>
        var selected := Select(Listed(listed));
        if |listed| != |selected| {
          PresentMembers(listed, clients.members);
          return Some(false);
        }
        var i := 0;
        while i < |listed|
          invariant 0 <= i <= |listed|
          invariant forall k :: 0 <= k < i ==> listed[k] == selected[k]
        {
          if listed[i] != selected[i] {
            assert listed != selected;
            PresentMembers(listed, clients.members);
            return Some(false);
          }
          i := i + 1;
        }
        assert listed == selected;
        PresentMembers(listed, clients.members);
        r := Some(true);
    }
  }

  /** The `out` sink: the packets the transport was asked to deliver, in order. */
  class Sink {
    var emitted: seq<DataPacket>

    constructor()
      ensures emitted == []
    {
      emitted := [];
    }

    method Emit(p: DataPacket)
      modifies this
      ensures emitted == old(emitted) + [p]
    {
      emitted := emitted + [p];
    }
  }

  class SendSelector {
    const data: seq<byte>
    const out: Sink
    const property: ClientProperty

    constructor(data: seq<byte>, out: Sink, property: ClientProperty)
      ensures this.data == data && this.out == out && this.property == property
    {
      this.data := data;
      this.out := out;
      this.property := property;
    }

    /** `to(selection)`: one packet per selected client, in selection order, all with the same data. */
    method To(selection: Selection)
      modifies out
      ensures out.emitted == old(out.emitted) + Packets(Selected(property.clients.members, selection), data)
    {
      var selected := property.Select(selection);
      ghost var start := out.emitted;
      var i := 0;
      while i < |selected|
        invariant 0 <= i <= |selected|
        invariant out.emitted == start + Packets(selected[..i], data)
      {
        assert selected[..i + 1][..i] == selected[..i];
        out.Emit(DataPacket(selected[i], data));
        i := i + 1;
      }
      assert selected[..i] == selected;
    }
  }

  /** The packets `to` emits for a list of targets: one per target, in order, each carrying `data`. */
  function Packets(targets: seq<Client>, data: seq<byte>): (r: seq<DataPacket>)
    ensures |r| == |targets|
    ensures forall i :: 0 <= i < |r| ==> r[i] == DataPacket(targets[i], data)
  {
    if |targets| == 0 then []
    else Packets(targets[..|targets| - 1], data) + [DataPacket(targets[|targets| - 1], data)]
  }
}
