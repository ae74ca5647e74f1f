/** Texts put one behind the other. */
module Texts {
  function Concat(bs: seq<string>): string {
    if bs == [] then "" else bs[0] + Concat(bs[1..])
  }

  lemma ConcatNone()
    ensures Concat([]) == ""
  {
  }

  lemma ConcatTail(bs: seq<string>)
    requires bs != []
    ensures Concat(bs) == bs[0] + Concat(bs[1..])
  {
  }

  lemma {:induction false} ConcatSnoc(bs: seq<string>, b: string)
    ensures Concat(bs + [b]) == Concat(bs) + b
  {
    if bs == [] {
      assert bs + [b] == [b] && [b][1..] == [];
      assert b + "" == b && "" + b == b;
    } else {
      ConcatSnoc(bs[1..], b);
      assert (bs + [b])[1..] == bs[1..] + [b];
    }
  }
}
