/** Searching in strings. */
module TextSearch {
  /** `value.includes(part)`. */
  predicate Occurs(value: string, part: string) {
    part <= value || (value != "" && Occurs(value[1..], part))
  }

  /** A part occurs where the value is something, the part and something. */
  lemma {:induction false} OccursExactly(value: string, part: string)
    ensures Occurs(value, part) <==> exists head, tail :: value == head + part + tail
    decreases |value|
  {
    if part <= value {
      assert value == "" + part + value[|part|..];
    } else if value != "" {
      OccursExactly(value[1..], part);
      if Occurs(value, part) {
        var head, tail :| value[1..] == head + part + tail;
        assert value == ([value[0]] + head) + part + tail;
      }
      if head, tail :| value == head + part + tail {
        assert head == "" ==> value == part + tail;
        assert value[1..] == head[1..] + part + tail;
      }
    } else {
      forall head, tail ensures value != head + part + tail {
        assert |head + part + tail| >= |part|;
      }
    }
  }
}
