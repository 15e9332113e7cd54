/** The connection pool (connpool.go): a slice appended to, swap-removed in place and truncated. */
module ConnPool {
  import opened Basics

  type ConnRef = nat

  /** Where the scan of `remove` stops: the first occurrence, or the length. */
  function IndexOf(data: seq<ConnRef>, c: ConnRef): (i: nat)
    ensures i <= |data|
    ensures i < |data| ==> data[i] == c
    ensures forall j | 0 <= j < i :: data[j] != c
  {
    if data == [] || data[0] == c then 0 else 1 + IndexOf(data[1..], c)
  }

  /** The last connection takes the removed one's place. */
  function SwapRemove(data: seq<ConnRef>, c: ConnRef): seq<ConnRef> {
    var i, last := IndexOf(data, c), |data| - 1;
    if i == |data| then data else data[i := data[last]][..last]
  }

  lemma RemoveLast(data: seq<ConnRef>)
    requires data != []
    ensures multiset(data) == multiset(data[..|data| - 1]) + multiset{data[|data| - 1]}
  {
    assert data == data[..|data| - 1] + [data[|data| - 1]];
  }

  /** Swap-removal takes out one occurrence and nothing else, and fails exactly when there is none. */
  lemma SwapRemoveContents(data: seq<ConnRef>, c: ConnRef)
    ensures multiset(SwapRemove(data, c)) == multiset(data) - multiset{c}
    ensures c in data <==> IndexOf(data, c) < |data|
  {
    var i, last := IndexOf(data, c), |data| - 1;
    if i == |data| {
      assert c !in multiset(data);
    } else {
      RemoveLast(data);
      if i < last { assert SwapRemove(data, c) == data[..last][i := data[last]]; }
    }
  }

  lemma FoundAt(data: seq<ConnRef>, c: ConnRef, i: nat)
    requires i < |data| && data[i] == c && forall j | 0 <= j < i :: data[j] != c
    ensures SwapRemove(data, c) == data[i := data[|data| - 1]][..|data| - 1]
    ensures i == |data| - 1 ==> SwapRemove(data, c) == data[..i]
  {
    assert IndexOf(data, c) == i;
    assert i == |data| - 1 ==> data[i := data[i]] == data;
  }

  class Pool {
    var data: seq<ConnRef>

    constructor ()
      ensures data == []
    {
      data := [];
    }

    method Len() returns (n: nat)
      ensures n == |data|
    {
      n := |data|;
    }

    method Clear() returns (conns: seq<ConnRef>)
      modifies this
      ensures conns == old(data) && data == []
    {
      conns := data;
      data := [];
    }

    method Put(c: ConnRef)
      modifies this
      ensures data == old(data) + [c]
    {
      data := data + [c];
    }

    method Remove(c: ConnRef) returns (ok: bool)
      modifies this
      ensures data == SwapRemove(old(data), c)
      ensures ok <==> c in old(data)
      ensures multiset(data) == multiset(old(data)) - multiset{c}
    {
      SwapRemoveContents(data, c);
      ok := RemoveLocked(c);
    }

    /** `remove`, with the lock held. */
    method RemoveLocked(c: ConnRef) returns (ok: bool)
      modifies this
      ensures data == SwapRemove(old(data), c)
      ensures ok <==> c in old(data)
    {
      var last := |data| - 1;
      var i := 0;
      while i < |data|
        invariant 0 <= i <= |data| && data == old(data)
        invariant forall j | 0 <= j < i :: data[j] != c
      {
        if data[i] == c {
          FoundAt(data, c, i);
          if i != last {
            data := data[i := data[last]];
          }
          data := data[..last];
          return true;
        }
        i := i + 1;
      }
      ok := false;
    }

    /** `PutFrom`: `panicked` is its panic, raised after `src` was searched and before anything changed. */
    method PutFrom(c: ConnRef, src: Pool) returns (panicked: bool)
      requires src != this
      modifies this, src
      ensures panicked <==> c !in old(src.data)
      ensures panicked ==> data == old(data) && src.data == old(src.data)
      ensures !panicked ==> data == old(data) + [c] && src.data == SwapRemove(old(src.data), c)
      ensures multiset(data) + multiset(src.data) == multiset(old(data)) + multiset(old(src.data))
    {
      SwapRemoveContents(src.data, c);
      var ok := src.RemoveLocked(c);
      if !ok {
        return true;
      }
      data := data + [c];
      panicked := false;
    }

    /** `TakeOr`: the last connection, or what `newer` makes; `None` is a nil connection. */
    method TakeOr(made: Option<ConnRef>) returns (c: Option<ConnRef>)
      modifies this
      ensures old(data) == [] ==> c == made && data == []
      ensures old(data) != [] ==> c.Some? && data + [c.value] == old(data)
    {
      var last := |data| - 1;
      if last < 0 {
        return made;
      }
      c := Some(data[last]);
      data := data[..last];
    }
  }
}
