/**
  Small things every module uses.
*/
module Helpers {

  datatype Option<T> = None | Some(value: T) {
    function GetOr(default: T): T {
      if Some? then value else default
    }
  }

  // The list a dictionary of lists holds under a key, empty when it holds none.
  function ListOf<K, T>(lists: map<K, seq<T>>, key: K): seq<T> {
    if key in lists then lists[key] else []
  }

  lemma Joined<T>(a: seq<T>, b: seq<T>, c: seq<T>)
    ensures a + b + c == a + (b + c) && [] + c == c
  {
  }

  ghost predicate NoneTwice<T>(s: seq<T>) {
    forall i, j :: 0 <= i < |s| && 0 <= j < |s| && s[i] == s[j] ==> i == j
  }

  lemma NoneTwiceInBoth<T>(a: seq<T>, b: seq<T>)
    requires NoneTwice(a) && NoneTwice(b) && forall x :: x in a ==> x !in b
    ensures NoneTwice(a + b)
  {
    var c := a + b;
    forall i | 0 <= i < |c| ensures if i < |a| then c[i] in a else c[i] in b { }
  }
}
