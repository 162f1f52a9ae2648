// The bot's list of running servers (Bot.servers, a LinkedList) and the
// queries the commands and the server processes make on it. Servers are
// objects: removal goes by identity, not by port or owner. The list operations
// are generic, so the earlier bot's list (src/org Bot.java) uses them as well.
module Registry {
  import opened Wrappers
  import ZandronumServer

  type Server = ZandronumServer.Server

  /** The list without the first occurrence of `s`; everything else keeps its order. */
  function RemoveFirst<S(==)>(l: seq<S>, s: S): (r: seq<S>)
    ensures s !in l ==> r == l
    ensures s in l ==> |r| == |l| - 1
  {
    if |l| == 0 then []
    else if l[0] == s then l[1..]
    else [l[0]] + RemoveFirst(l[1..], s)
  }

  /** The removed element is the first one identical to `s`, and the rest is untouched. */
  lemma {:induction false} RemoveFirstCuts<S>(l: seq<S>, s: S) returns (i: nat)
    requires s in l
    ensures i < |l| && l[i] == s && s !in l[..i] && RemoveFirst(l, s) == l[..i] + l[i + 1..]
  {
    if l[0] == s {
      i := 0;
      assert l[..0] == [] && RemoveFirst(l, s) == l[..0] + l[1..];
    } else {
      var t := l[1..];
      var k := RemoveFirstCuts(t, s);
      i := k + 1;
      assert l[..i] == [l[0]] + t[..k];
      assert l[i + 1..] == t[k + 1..];
      assert RemoveFirst(l, s) == [l[0]] + RemoveFirst(t, s);
    }
  }

  /** Found at `i` with no earlier occurrence: the removal cuts out exactly index `i`. */
  lemma {:induction false} RemoveFirstFound<S>(l: seq<S>, i: nat, s: S)
    requires i < |l| && l[i] == s && s !in l[..i]
    ensures RemoveFirst(l, s) == l[..i] + l[i + 1..]
    decreases i
  {
    if i > 0 {
      var t := l[1..];
      assert l[..i] == [l[0]] + t[..i - 1];
      RemoveFirstFound(t, i - 1, s);
      assert l[i + 1..] == t[i..];
    }
  }

  /** Each server occurs at most once. */
  predicate Distinct<S(==)>(l: seq<S>)
  {
    forall i, j :: 0 <= i < j < |l| ==> l[i] != l[j]
  }

  /** In a list without repeats, removing a server twice is the same as removing it once. */
  lemma RemoveTwice<S>(l: seq<S>, s: S)
    requires Distinct(l)
    ensures RemoveFirst(RemoveFirst(l, s), s) == RemoveFirst(l, s)
    ensures s !in RemoveFirst(l, s)
  {
    if s in l {
      var i := RemoveFirstCuts(l, s);
      forall t | t in RemoveFirst(l, s)
        ensures t != s
      {
        var k :| 0 <= k < |RemoveFirst(l, s)| && RemoveFirst(l, s)[k] == t;
        if k < i {
          assert t == l[k];
        } else {
          assert t == l[k + 1];
        }
      }
    }
  }

  /** getServer, specified: the first server in list order on `port`. */
  function FirstOnPort(l: seq<Server>, port: int): (r: Option<Server>)
    reads l
    ensures r.None? <==> forall i :: 0 <= i < |l| ==> l[i].runtime.port != port
    ensures r.Some? ==> exists i :: 0 <= i < |l| && l[i] == r.value && r.value.runtime.port == port
                                    && forall j :: 0 <= j < i ==> l[j].runtime.port != port
  {
    if |l| == 0 then None
    else if l[0].runtime.port == port then Some(l[0])
    else
      var r := FirstOnPort(l[1..], port);
      assert forall i :: 0 <= i < |l[1..]| ==> l[1..][i] == l[i + 1];
      r
  }

  /** getUserServers, specified: the servers of one owner, in list order. */
  function OwnedBy(l: seq<Server>, userId: string): (r: seq<Server>)
    reads l
    ensures |r| <= |l|
    ensures forall i :: 0 <= i < |r| ==> r[i] in l && r[i].userId == userId
    ensures forall i :: 0 <= i < |l| && l[i].userId == userId ==> l[i] in r
  {
    if |l| == 0 then []
    else if l[0].userId == userId then [l[0]] + OwnedBy(l[1..], userId)
    else OwnedBy(l[1..], userId)
  }

  /** The list after removing, in order, the first occurrence of each of `xs`. */
  function RemoveEach<S(==)>(l: seq<S>, xs: seq<S>): (r: seq<S>)
    ensures |r| <= |l|
    decreases |xs|
  {
    if |xs| == 0 then l else RemoveEach(RemoveFirst(l, xs[0]), xs[1..])
  }

  /** Removing one more server at the end of the batch. */
  lemma {:induction false} RemoveEachSnoc<S>(l: seq<S>, xs: seq<S>, x: S)
    ensures RemoveEach(l, xs + [x]) == RemoveFirst(RemoveEach(l, xs), x)
    decreases |xs|
  {
    if |xs| > 0 {
      assert (xs + [x])[0] == xs[0] && (xs + [x])[1..] == xs[1..] + [x];
      RemoveEachSnoc(RemoveFirst(l, xs[0]), xs[1..], x);
    } else {
      assert xs + [x] == [x];
    }
  }

  /** The batch grows by the snapshot's next server. */
  lemma RemoveEachStep<S>(l: seq<S>, xs: seq<S>, i: nat)
    requires i < |xs|
    ensures RemoveEach(l, xs[..i + 1]) == RemoveFirst(RemoveEach(l, xs[..i]), xs[i])
  {
    assert xs[..i + 1] == xs[..i] + [xs[i]];
    RemoveEachSnoc(l, xs[..i], xs[i]);
  }

  /** Removing every server of a snapshot, in snapshot order, empties the list. */
  lemma {:induction false} RemoveEachAll<S>(l: seq<S>)
    ensures RemoveEach(l, l) == []
    decreases |l|
  {
    if |l| > 0 {
      assert RemoveFirst(l, l[0]) == l[1..];
      RemoveEachAll(l[1..]);
    }
  }

  /** A server that is not in the batch keeps its place in front. */
  lemma {:induction false} RemoveEachSkip<S>(x: S, l: seq<S>, xs: seq<S>)
    requires x !in xs
    ensures RemoveEach([x] + l, xs) == [x] + RemoveEach(l, xs)
    decreases |xs|
  {
    if |xs| > 0 {
      assert ([x] + l)[1..] == l;
      assert RemoveFirst([x] + l, xs[0]) == [x] + RemoveFirst(l, xs[0]);
      RemoveEachSkip(x, RemoveFirst(l, xs[0]), xs[1..]);
    }
  }

  /** The servers of everybody else, in list order. */
  function NotOwnedBy(l: seq<Server>, userId: string): (r: seq<Server>)
    reads l
    ensures forall i :: 0 <= i < |r| ==> r[i] in l && r[i].userId != userId
    ensures forall i :: 0 <= i < |l| && l[i].userId != userId ==> l[i] in r
  {
    if |l| == 0 then []
    else if l[0].userId == userId then NotOwnedBy(l[1..], userId)
    else [l[0]] + NotOwnedBy(l[1..], userId)
  }

  /** Removing an owner's servers one by one leaves exactly the others, in order. */
  lemma {:induction false} RemoveEachOwned(l: seq<Server>, userId: string)
    ensures RemoveEach(l, OwnedBy(l, userId)) == NotOwnedBy(l, userId)
    decreases |l|
  {
    if |l| > 0 {
      var t := l[1..];
      assert l == [l[0]] + t;
      RemoveEachOwned(t, userId);
      if l[0].userId == userId {
        assert OwnedBy(l, userId) == [l[0]] + OwnedBy(t, userId);
        assert RemoveFirst(l, l[0]) == t;
      } else {
        assert l[0] !in OwnedBy(t, userId);
        RemoveEachSkip(l[0], t, OwnedBy(t, userId));
      }
    }
  }

  /** The servers whose flag is set, in list order. */
  function Select<S(==)>(l: seq<S>, flags: seq<bool>): (r: seq<S>)
    requires |flags| == |l|
    ensures |r| <= |l|
    ensures forall i :: 0 <= i < |r| ==> exists k :: 0 <= k < |l| && l[k] == r[i] && flags[k]
    ensures forall i :: 0 <= i < |l| && flags[i] ==> l[i] in r
  {
    if |l| == 0 then []
    else
      var t, f := l[1..], flags[1..];
      var rest := Select(t, f);
      var r := (if flags[0] then [l[0]] else []) + rest;
      assert forall i :: 0 <= i < |r| ==> exists k :: 0 <= k < |l| && l[k] == r[i] && flags[k] by {
        forall i | 0 <= i < |r|
          ensures exists k :: 0 <= k < |l| && l[k] == r[i] && flags[k]
        {
          if i >= |r| - |rest| {
            var k :| 0 <= k < |t| && t[k] == rest[i - (|r| - |rest|)] && f[k];
            assert l[k + 1] == r[i] && flags[k + 1];
          }
        }
      }
      r
  }

  /** The servers whose flag is clear, in list order. */
  function Reject<S(==)>(l: seq<S>, flags: seq<bool>): (r: seq<S>)
    requires |flags| == |l|
    ensures forall i :: 0 <= i < |r| ==> exists k :: 0 <= k < |l| && l[k] == r[i] && !flags[k]
    ensures forall i :: 0 <= i < |l| && !flags[i] ==> l[i] in r
  {
    if |l| == 0 then []
    else
      var t, f := l[1..], flags[1..];
      var rest := Reject(t, f);
      var r := (if flags[0] then [] else [l[0]]) + rest;
      assert forall i :: 0 <= i < |r| ==> exists k :: 0 <= k < |l| && l[k] == r[i] && !flags[k] by {
        forall i | 0 <= i < |r|
          ensures exists k :: 0 <= k < |l| && l[k] == r[i] && !flags[k]
        {
          if i >= |r| - |rest| {
            var k :| 0 <= k < |t| && t[k] == rest[i - (|r| - |rest|)] && !f[k];
            assert l[k + 1] == r[i] && !flags[k + 1];
          }
        }
      }
      r
  }

  /** Flags that depend on the server only: a server listed twice is flagged alike. */
  predicate Consistent<S(==)>(l: seq<S>, flags: seq<bool>)
    requires |flags| == |l|
  {
    forall i, j :: 0 <= i < |l| && 0 <= j < |l| && l[i] == l[j] ==> flags[i] == flags[j]
  }

  /** A server flagged nowhere is not selected. */
  lemma {:induction false} SelectSkips<S>(l: seq<S>, flags: seq<bool>, x: S)
    requires |flags| == |l|
    requires forall i :: 0 <= i < |l| && l[i] == x ==> !flags[i]
    ensures x !in Select(l, flags)
    decreases |l|
  {
    if |l| > 0 {
      SelectSkips(l[1..], flags[1..], x);
    }
  }

  /** Taking the selected servers off the list one by one leaves exactly the rejected ones, in order. */
  lemma {:induction false} RemoveEachSelect<S>(l: seq<S>, flags: seq<bool>)
    requires |flags| == |l| && Consistent(l, flags)
    ensures RemoveEach(l, Select(l, flags)) == Reject(l, flags)
    decreases |l|
  {
    if |l| > 0 {
      var t, f := l[1..], flags[1..];
      assert l == [l[0]] + t;
      assert Consistent(t, f) by {
        forall i, j | 0 <= i < |t| && 0 <= j < |t| && t[i] == t[j]
          ensures f[i] == f[j]
        {
          assert l[i + 1] == l[j + 1];
        }
      }
      RemoveEachSelect(t, f);
      if flags[0] {
        assert Select(l, flags) == [l[0]] + Select(t, f);
        assert RemoveFirst(l, l[0]) == t;
      } else {
        assert Select(l, flags) == Select(t, f);
        assert Reject(l, flags) == [l[0]] + Reject(t, f);
        forall i | 0 <= i < |t| && t[i] == l[0]
          ensures !f[i]
        {
          assert l[i + 1] == l[0];
        }
        SelectSkips(t, f, l[0]);
        RemoveEachSkip(l[0], t, Select(t, f));
      }
    }
  }

  class Registry {
    /** The running servers in insertion order. */
    var servers: seq<Server>

    /** A bot starts with no servers. */
    constructor ()
      ensures servers == []
    {
      servers := [];
    }

    /** addToLinkedList: the server goes at the tail. */
    method Add(s: Server)
      modifies this
      ensures servers == old(servers) + [s]
    {
      servers := servers + [s];
    }

    /**
     * removeServerFromLinkedList: walk the list and drop the first entry
     * that is this very object; when it is absent nothing changes.
     */
    method Remove(s: Server)
      modifies this
      ensures servers == RemoveFirst(old(servers), s)
    {
      var l := servers;
      var i := 0;
      while i < |l|
        invariant 0 <= i <= |l| && servers == l
        invariant s !in l[..i]
      {
        if l[i] == s {
          RemoveFirstFound(l, i, s);
          servers := l[..i] + l[i + 1..];
          return;
        }
        assert l[..i + 1] == l[..i] + [l[i]];
        i := i + 1;
      }
      assert l[..i] == l;
    }

    /** getServer: the first server on `port`, None for null. */
    method GetServer(port: int) returns (r: Option<Server>)
      ensures r == FirstOnPort(servers, port)
    {
      var i := 0;
      while i < |servers|
        invariant 0 <= i <= |servers|
        invariant FirstOnPort(servers, port) == FirstOnPort(servers[i..], port)
      {
        if servers[i].runtime.port == port {
          return Some(servers[i]);
        }
        assert servers[i..][1..] == servers[i + 1..];
        i := i + 1;
      }
      return None;
    }

    /** getUserServers: a fresh list of the owner's servers, empty rather than null. */
    method GetUserServers(userId: string) returns (r: seq<Server>)
      ensures r == OwnedBy(servers, userId)
    {
      r := [];
      var i := 0;
      while i < |servers|
        invariant 0 <= i <= |servers|
        invariant OwnedBy(servers, userId) == r + OwnedBy(servers[i..], userId)
      {
        assert servers[i..][1..] == servers[i + 1..];
        if servers[i].userId == userId {
          r := r + [servers[i]];
        }
        i := i + 1;
      }
    }

    /** getAllServers: a copy of the list, or null when it is empty. */
    method GetAllServers() returns (r: Option<seq<Server>>)
      ensures r.None? <==> |servers| == 0
      ensures r.Some? ==> r.value == servers
    {
      if |servers| == 0 {
        return None;
      }
      var copy := [];
      for i := 0 to |servers|
        invariant copy == servers[..i]
      {
        copy := copy + [servers[i]];
      }
      return Some(copy);
    }
  }
}
