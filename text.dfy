/** `sep.join(parts)`: the parts in order with `sep` between neighbours. */
module Text {

  /** Defined from the right, so that appending one part to a joined list is
      one step of the definition. */
  function Join(sep: string, parts: seq<string>): string
    decreases |parts|
  {
    if |parts| == 0 then ""
    else if |parts| == 1 then parts[0]
    else Join(sep, parts[..|parts| - 1]) + sep + parts[|parts| - 1]
  }

  /** Total length of the parts. */
  function TotalLength(parts: seq<string>): nat
    decreases |parts|
  {
    if |parts| == 0 then 0 else TotalLength(parts[..|parts| - 1]) + |parts[|parts| - 1]|
  }

  /** Joining adds exactly one separator between each pair of neighbours. */
  lemma {:induction false} JoinLength(sep: string, parts: seq<string>)
    requires |parts| > 0
    ensures |Join(sep, parts)| == TotalLength(parts) + (|parts| - 1) * |sep|
    decreases |parts|
  {
    var n := |parts|;
    if n > 1 {
      var init := parts[..n - 1];
      JoinLength(sep, init);
      assert |Join(sep, init)| == TotalLength(init) + (n - 2) * |sep|;
      assert (n - 2) * |sep| + |sep| == (n - 1) * |sep|;
    }
  }

  /** The usual left-to-right reading of a join: the first part, then a
      separator, then the join of the rest. */
  lemma {:induction false} JoinFront(sep: string, parts: seq<string>)
    requires |parts| >= 2
    ensures Join(sep, parts) == parts[0] + sep + Join(sep, parts[1..])
    decreases |parts|
  {
    var n := |parts|;
    if n > 2 {
      var init := parts[..n - 1];
      JoinFront(sep, init);
      assert init[1..] == parts[1..][..n - 2];
      assert parts[1..][n - 2] == parts[n - 1];
    } else {
      assert parts[..1] == [parts[0]];
      assert parts[1..] == [parts[1]];
    }
  }

  /** Appending a part to a non-empty list appends one separator and the part. */
  lemma JoinSnoc(sep: string, parts: seq<string>, last: string)
    requires |parts| > 0
    ensures Join(sep, parts + [last]) == Join(sep, parts) + sep + last
  {
  }
}
