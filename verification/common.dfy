/** Small helpers shared by every module. */
module Common {

  datatype Option<+T> = None | Some(value: T)

  ghost predicate NoDuplicates<T>(s: seq<T>) {
    forall i, j :: 0 <= i < j < |s| ==> s[i] != s[j]
  }

  /** What is left after one element is peeled off a sum, a fold or a filter. */
  lemma SplitFirst<T>(s: seq<T>, t: seq<T>)
    requires s != []
    ensures (s + t)[0] == s[0] && (s + t)[1..] == s[1..] + t
  {
  }

  // ---- one owner's share of a log -------------------------------------------

  function Select<T(!new)>(s: seq<T>, owner: T -> string, id: string): (r: seq<T>)
    ensures forall x :: x in r <==> x in s && owner(x) == id
  {
    if s == [] then []
    else (if owner(s[0]) == id then [s[0]] else []) + Select(s[1..], owner, id)
  }

  lemma {:induction false} SelectConcat<T(!new)>(s: seq<T>, t: seq<T>, owner: T -> string, id: string)
    ensures Select(s + t, owner, id) == Select(s, owner, id) + Select(t, owner, id)
  {
    if s == [] {
      assert s + t == t;
    } else {
      SplitFirst(s, t);
      SelectConcat(s[1..], t, owner, id);
    }
  }

  /** A log with a single owner is that owner's share whole, and nobody else's. */
  lemma {:induction false} SelectUniform<T(!new)>(s: seq<T>, owner: T -> string, sole: string, id: string)
    requires forall x | x in s :: owner(x) == sole
    ensures Select(s, owner, id) == if id == sole then s else []
  {
    if s != [] {
      assert s[0] in s;
      SelectUniform(s[1..], owner, sole, id);
      assert s == [s[0]] + s[1..];
    }
  }

  lemma {:induction false} SelectAbsent<T(!new)>(s: seq<T>, owner: T -> string, id: string)
    requires forall x | x in s :: owner(x) != id
    ensures Select(s, owner, id) == []
  {
    if s != [] {
      assert s[0] in s;
      SelectAbsent(s[1..], owner, id);
    }
  }

  /** Where an element of a log stands in its owner's share. */
  lemma SelectAt<T(!new)>(s: seq<T>, owner: T -> string, id: string, p: nat)
    requires p < |s| && owner(s[p]) == id
    ensures var i := |Select(s[..p], owner, id)|;
      i < |Select(s, owner, id)| && Select(s, owner, id)[i] == s[p]
  {
    assert s == s[..p] + ([s[p]] + s[p + 1..]);
    SelectConcat(s[..p], [s[p]] + s[p + 1..], owner, id);
    SelectConcat([s[p]], s[p + 1..], owner, id);
  }

  lemma SelectGrows<T(!new)>(s: seq<T>, owner: T -> string, id: string, p: nat, q: nat)
    requires p < q <= |s| && owner(s[p]) == id
    ensures |Select(s[..p], owner, id)| < |Select(s[..q], owner, id)|
  {
    assert s[..q] == s[..p] + ([s[p]] + s[p + 1..q]);
    SelectConcat(s[..p], [s[p]] + s[p + 1..q], owner, id);
    SelectConcat([s[p]], s[p + 1..q], owner, id);
  }
}
