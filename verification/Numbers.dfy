/** A number that is not in use: the next pod, process or process id. */
module Numbers {

  lemma Unused(numbers: set<int>) returns (n: nat)
    ensures forall m <- numbers :: m < n
    ensures n !in numbers
  {
    if m :| m in numbers {
      var k := Unused(numbers - {m});
      n := if k > m then k else m + 1;
      assert forall x <- numbers :: x == m || x in numbers - {m};
    } else {
      n := 0;
    }
  }
}
