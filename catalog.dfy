/** GetNonRecoubs: loading the user's catalog and dropping the reposts. */
module Catalog {
  import opened Wrappers
  import opened Records
  import opened Host

  /** `<dir>/<user>.json`. */
  function CatalogPath(dir: string, user: string): string
  {
    dir + "/" + user + ".json"
  }

  /** The records that are not reposts, in their original order. */
  function NonRecoubs(cs: seq<Coub>): seq<Coub>
    decreases |cs|
  {
    if cs == [] then []
    else NonRecoubs(cs[..|cs| - 1]) + (if IsRecoub(cs[|cs| - 1]) then [] else [cs[|cs| - 1]])
  }

  /** `r` can be obtained from `s` by deleting elements. */
  predicate IsSubsequence<T(==)>(r: seq<T>, s: seq<T>)
    decreases |s|
  {
    r == [] ||
    (s != [] &&
      ((r[|r| - 1] == s[|s| - 1] && IsSubsequence(r[..|r| - 1], s[..|s| - 1]))
       || IsSubsequence(r, s[..|s| - 1])))
  }

  /** The number of reposts in `cs`. */
  function RecoubCount(cs: seq<Coub>): nat
    decreases |cs|
  {
    if cs == [] then 0 else RecoubCount(cs[..|cs| - 1]) + (if IsRecoub(cs[|cs| - 1]) then 1 else 0)
  }

  /** The filter keeps exactly the non-reposts: a record is in the result iff it is in the input
      and is not a repost. */
  lemma {:induction false} NonRecoubsMembers(cs: seq<Coub>)
    ensures forall c :: c in NonRecoubs(cs) <==> c in cs && !IsRecoub(c)
    decreases |cs|
  {
    if cs != [] {
      var init, last := cs[..|cs| - 1], cs[|cs| - 1];
      NonRecoubsMembers(init);
      assert cs == init + [last];
    }
  }

  /** The result keeps the input's order: it is a subsequence of the input. */
  lemma {:induction false} NonRecoubsInOrder(cs: seq<Coub>)
    ensures IsSubsequence(NonRecoubs(cs), cs)
    decreases |cs|
  {
    if cs != [] {
      var init, last := cs[..|cs| - 1], cs[|cs| - 1];
      NonRecoubsInOrder(init);
      var r := NonRecoubs(cs);
      if !IsRecoub(last) {
        assert r == NonRecoubs(init) + [last];
        assert r[..|r| - 1] == NonRecoubs(init) && r[|r| - 1] == last;
      } else {
        assert r == NonRecoubs(init);
      }
    }
  }

  /** Exactly one record is dropped per repost, so the result is never longer than the input. */
  lemma {:induction false} NonRecoubsLength(cs: seq<Coub>)
    ensures |NonRecoubs(cs)| == |cs| - RecoubCount(cs) <= |cs|
    decreases |cs|
  {
    if cs != [] {
      NonRecoubsLength(cs[..|cs| - 1]);
    }
  }

  /** Filtering distributes over concatenation: reposts are judged one record at a time. */
  lemma {:induction false} NonRecoubsAppend(a: seq<Coub>, b: seq<Coub>)
    ensures NonRecoubs(a + b) == NonRecoubs(a) + NonRecoubs(b)
    decreases |b|
  {
    if b == [] {
      assert a + b == a;
    } else {
      var init := b[..|b| - 1];
      assert (a + b)[..|a + b| - 1] == a + init;
      NonRecoubsAppend(a, init);
    }
  }

  /** Filtering a second time changes nothing. */
  lemma {:induction false} NonRecoubsIdempotent(cs: seq<Coub>)
    ensures NonRecoubs(NonRecoubs(cs)) == NonRecoubs(cs)
    decreases |cs|
  {
    if cs != [] {
      var init, last := cs[..|cs| - 1], cs[|cs| - 1];
      NonRecoubsIdempotent(init);
      var tail := if IsRecoub(last) then [] else [last];
      NonRecoubsAppend(NonRecoubs(init), tail);
      assert NonRecoubs(tail) == tail by {
        if tail != [] {
          assert tail[..0] == [];
        }
      }
    }
  }

  /** GetNonRecoubs(dir, user): an open error is returned; otherwise the non-reposts among the
      decoded records are returned with a nil error, whether or not decoding reported an error. */
  method GetNonRecoubs(disk: Disk, dir: string, user: string) returns (r: Result<seq<Coub>, Error>)
    ensures disk.catalog(CatalogPath(dir, user)).Missing? ==>
      r == Failure(disk.catalog(CatalogPath(dir, user)).openError)
    ensures disk.catalog(CatalogPath(dir, user)).Present? ==>
      r == Success(NonRecoubs(disk.catalog(CatalogPath(dir, user)).decoded))
  {
    var file := disk.catalog(CatalogPath(dir, user));
    if file.Missing? {
      return Failure(file.openError);
    }
    var decoded := file.decoded;
    var coubs: seq<Coub> := [];
    var i := 0;
    while i < |decoded|
      invariant 0 <= i <= |decoded|
      invariant coubs == NonRecoubs(decoded[..i])
    {
      assert decoded[..i + 1][..i] == decoded[..i];
      if decoded[i].kind != RecoubKind {
        coubs := coubs + [decoded[i]];
      }
      i := i + 1;
    }
    assert decoded[..i] == decoded;
    return Success(coubs);
  }
}
