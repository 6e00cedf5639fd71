/** Sequences without repetition, as the kernel's lists are. */
module Seqs {

  ghost predicate NoRepeats<T>(q: seq<T>) {
    forall i, j :: 0 <= i < j < |q| ==> q[i] != q[j]
  }

  /** c with n in front of position i. */
  function Insert<T>(c: seq<T>, i: nat, n: T): seq<T>
    requires i <= |c|
  {
    c[..i] + [n] + c[i..]
  }

  /** c without position i. */
  function Without<T>(c: seq<T>, i: nat): seq<T>
    requires i < |c|
  {
    c[..i] + c[i + 1..]
  }

  /** q without its members equal to t. */
  function Minus(q: seq<int>, t: int): seq<int> {
    if q == [] then [] else (if q[0] == t then [] else [q[0]]) + Minus(q[1..], t)
  }

  lemma {:induction false} MinusMembers(q: seq<int>, t: int)
    ensures forall u {:trigger u in Minus(q, t)} {:trigger u in q} :: u in Minus(q, t) <==> u in q && u != t
    ensures t !in q ==> Minus(q, t) == q
  {
    if q != [] {
      MinusMembers(q[1..], t);
      assert forall u :: u in q <==> u == q[0] || u in q[1..];
    }
  }

  lemma MinusCons(x: int, q: seq<int>, t: int)
    ensures Minus([x] + q, t) == if x == t then Minus(q, t) else [x] + Minus(q, t)
  {
    assert ([x] + q)[1..] == q;
  }

  lemma {:induction false} MinusNoRepeats(q: seq<int>, t: int)
    requires NoRepeats(q)
    ensures NoRepeats(Minus(q, t))
  {
    if q != [] {
      assert q[0] !in q[1..];
      MinusNoRepeats(q[1..], t);
      MinusMembers(q[1..], t);
    }
  }

  lemma MinusHead(q: seq<int>)
    requires q != [] && NoRepeats(q)
    ensures Minus(q, q[0]) == q[1..] && q[0] !in q[1..]
  {
    assert q[0] !in q[1..];
    MinusMembers(q[1..], q[0]);
  }

  lemma {:induction false} MinusAt(q: seq<int>, i: nat)
    requires NoRepeats(q) && i < |q|
    ensures Minus(q, q[i]) == Without(q, i)
  {
    if i == 0 {
      MinusHead(q);
    } else {
      assert q[1..][i - 1] == q[i];
      MinusAt(q[1..], i - 1);
      assert q[..i] + q[i + 1..] == [q[0]] + (q[1..][..i - 1] + q[1..][i..]);
    }
  }

  lemma {:induction false} MinusShorter(q: seq<int>, t: int)
    requires t in q
    ensures |Minus(q, t)| < |q|
  {
    MinusLength(q[1..], t);
    if q[0] != t {
      MinusShorter(q[1..], t);
    }
  }

  lemma {:induction false} MinusLength(q: seq<int>, t: int)
    ensures |Minus(q, t)| <= |q|
  {
    if q != [] {
      MinusLength(q[1..], t);
    }
  }

  lemma HeadOnce(q: seq<int>)
    requires q != [] && NoRepeats(q)
    ensures q[0] !in q[1..] && NoRepeats(q[1..])
    ensures forall u {:trigger u in q[1..]} {:trigger u in q} :: u in q <==> u == q[0] || u in q[1..]
  {
  }

  lemma ConsOnce(z: int, q: seq<int>)
    requires NoRepeats(q) && z !in q
    ensures NoRepeats([z] + q)
  {
  }

  /** A sequence without repetition has as many members as places. */
  lemma {:induction false} SetOf(q: seq<int>)
    requires NoRepeats(q)
    ensures |set i | i in q| == |q|
  {
    var s := set i | i in q;
    if q == [] {
      assert s == {};
    } else {
      HeadOnce(q);
      SetOf(q[1..]);
      var t := set i | i in q[1..];
      assert s == t + {q[0]};
    }
  }
}
