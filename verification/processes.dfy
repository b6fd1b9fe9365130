/** The simulated process record of FileName.cpp and the facts about process
    identities that the queue model needs. */
module Processes {
  import opened Sequences

  /** A simulated process: its id, its class tag (`'F'` or `'B'`) and the flag
      that promotion out of the wait queue sets. Processes are values here; the
      source passes pointers, but no two of them share an id. */
  datatype Process = Process(id: int, kind: char, promoted: bool)

  /** The constructor of the source: a new process carries the given id and
      class tag and is not promoted. */
  function NewProcess(id: int, kind: char): (p: Process)
    ensures p.id == id && p.kind == kind && !p.promoted
  {
    Process(id, kind, false)
  }

  /** Promotion sets the flag and changes nothing else about the process. */
  function Promote(p: Process): (q: Process)
    ensures q.promoted
    ensures q.id == p.id && q.kind == p.kind
    ensures !p.promoted ==> q != p
    ensures p.promoted ==> q == p
  {
    p.(promoted := true)
  }

  /** The ids of a sequence of processes, position by position. */
  function Ids(ps: seq<Process>): seq<int> {
    seq(|ps|, k requires 0 <= k < |ps| => ps[k].id)
  }

  lemma IdsAppend(a: seq<Process>, b: seq<Process>)
    ensures Ids(a + b) == Ids(a) + Ids(b)
  {
  }

  /** Rearranging processes rearranges their ids the same way. */
  lemma {:induction false} IdsPermutation(a: seq<Process>, b: seq<Process>)
    requires multiset(a) == multiset(b)
    ensures multiset(Ids(a)) == multiset(Ids(b))
    decreases |a|
  {
    if a == [] {
      assert |b| == |multiset(b)| == 0;
    } else {
      assert a[0] in multiset(b);
      var k :| 0 <= k < |b| && b[k] == a[0];
      var rest := b[..k] + b[k + 1..];
      RemoveOneMultiset(a, b, k);
      IdsPermutation(a[1..], rest);
      IdsOfRemoval(b, k);
      assert Ids(a) == [a[0].id] + Ids(a[1..]);
    }
  }

  lemma RemoveOneMultiset(a: seq<Process>, b: seq<Process>, k: nat)
    requires multiset(a) == multiset(b)
    requires a != [] && k < |b| && b[k] == a[0]
    ensures multiset(a[1..]) == multiset(b[..k] + b[k + 1..])
  {
    var rest := b[..k] + b[k + 1..];
    assert b == b[..k] + [b[k]] + b[k + 1..];
    assert a == [a[0]] + a[1..];
    assert multiset(b) == multiset(b[..k]) + multiset{b[k]} + multiset(b[k + 1..]);
    assert multiset(rest) == multiset(b[..k]) + multiset(b[k + 1..]);
    forall x ensures multiset(a[1..])[x] == multiset(rest)[x] {
      assert multiset(a)[x] == multiset(b)[x];
    }
  }

  lemma IdsOfRemoval(b: seq<Process>, k: nat)
    requires k < |b|
    ensures multiset(Ids(b)) == multiset(Ids(b[..k] + b[k + 1..])) + multiset{b[k].id}
  {
    var ids := Ids(b);
    assert ids == ids[..k] + [b[k].id] + ids[k + 1..];
    assert Ids(b[..k] + b[k + 1..]) == ids[..k] + ids[k + 1..];
  }

  /** Setting the promotion flag of one entry leaves the ids untouched. */
  lemma IdsIgnorePromotion(ps: seq<Process>, k: nat)
    requires k < |ps|
    ensures Ids(ps[k := Promote(ps[k])]) == Ids(ps)
  {
  }

  /** When ids are distinct, a process is determined by its id. */
  lemma SameIdSameProcess(ps: seq<Process>, p: Process, q: Process)
    requires NoDuplicates(Ids(ps))
    requires p in ps && q in ps && p.id == q.id
    ensures p == q
  {
    var i :| 0 <= i < |ps| && ps[i] == p;
    var j :| 0 <= j < |ps| && ps[j] == q;
    assert Ids(ps)[i] == Ids(ps)[j];
  }

  /** `q` is a process of `ps`, possibly with its promotion flag set since. */
  predicate DescendsFrom(q: Process, ps: seq<Process>) {
    q in ps || (q.promoted && q.(promoted := false) in ps)
  }

  /** Under distinct ids, a descendant keeps the class tag and never loses the flag. */
  lemma DescendantKeepsPromotion(ps: seq<Process>, p: Process, q: Process)
    requires NoDuplicates(Ids(ps))
    requires p in ps && DescendsFrom(q, ps) && p.id == q.id
    ensures q.kind == p.kind
    ensures p.promoted ==> q.promoted
  {
    if q in ps {
      SameIdSameProcess(ps, p, q);
    } else {
      SameIdSameProcess(ps, p, q.(promoted := false));
    }
  }
}
