/** Small facts about finite sets and sequences. */
module Collections {

  lemma SubsetSize<T>(a: set<T>, b: set<T>)
    requires a <= b
    ensures |a| <= |b|
  {
    assert b == a + (b - a);
  }

  lemma MoveOver<T>(pending: set<T>, done: set<T>, x: T)
    requires x in pending && pending !! done
    ensures pending - {x} !! done + {x} && (pending - {x}) + (done + {x}) == pending + done
  {
  }

  lemma Regroup<T>(a: seq<T>, b: seq<T>, c: seq<T>)
    ensures a + (b + c) == (a + b) + c
  {
  }
}
