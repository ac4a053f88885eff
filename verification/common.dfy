/** Vocabulary shared by every other module: optional values and finite enumerations. */
module Common {

  /** Address families. */
  datatype Fam = IPv4 | IPv6

  datatype Option<+T> = None | Some(value: T)

  /** One thing per address family. */
  datatype Both<T> = Both(v4: T, v6: T) {
    function Of(fam: Fam): T {
      if fam.IPv4? then v4 else v6
    }

    function With(fam: Fam, x: T): Both<T> {
      if fam.IPv4? then Both(x, v6) else Both(v4, x)
    }
  }

  function Range<T>(s: seq<T>): set<T> {
    set x | x in s
  }

  ghost predicate Distinct<T(!new)>(s: seq<T>) {
    forall i, j :: 0 <= i < j < |s| ==> s[i] != s[j]
  }

  /** s lists every member of xs exactly once; the order is left open. */
  ghost predicate Enumerates<T(!new)>(s: seq<T>, xs: set<T>) {
    && Distinct(s)
    && Range(s) == xs
  }

  /** Visits a set in some order, as a range over a Go map does. */
  method Enumerate<T(!new, ==)>(xs: set<T>) returns (s: seq<T>)
    ensures Enumerates(s, xs)
  {
    s := [];
    var todo := xs;
    while todo != {}
      invariant todo <= xs
      invariant Enumerates(s, xs - todo)
      decreases |todo|
    {
      var x :| x in todo;
      assert xs - (todo - {x}) == xs - todo + {x};
      assert Range(s + [x]) == Range(s) + {x};
      assert x !in Range(s);
      todo := todo - {x};
      s := s + [x];
    }
    assert xs - todo == xs;
  }

  function IndexOf<T(==)>(s: seq<T>, x: T): (i: nat)
    requires x in s
    ensures i < |s| && s[i] == x
  {
    if s[0] == x then 0 else 1 + IndexOf(s[1..], x)
  }
}
