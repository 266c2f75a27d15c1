/** Shared value types: optional values and content digests. */
module Common {

  datatype Option<+T> = None | Some(value: T)

  /** A SHA-256 content address (section 6.2 of FIPS 180-4), kept symbolic.  Two
      payloads have the same digest exactly when they are equal, and no payload can
      contain its own digest: the two properties the receipt code relies on. */
  datatype Digest<+T> = Sha256(of: T)

  /** The only member of a one-element set. */
  ghost function Sole<T>(s: set<T>): (x: T)
    requires |s| == 1
    ensures x in s
  {
    var x :| x in s; x
  }

  lemma TheSole<T>(s: set<T>, x: T)
    requires |s| == 1 && x in s
    ensures s == {x} && Sole(s) == x
  {
    assert s - {x} == {} by {
      assert |s - {x}| == |s| - 1;
    }
    assert s == {x} + (s - {x});
  }
}
