/** `_extract_json_object` (agent/ai_output_parser.py): a backward brace match.  `valid` stands for
    "parses as JSON". */
module BraceExtraction {
  import opened Common

  /** Closing minus opening braces of text[j..end]; a brace inside a JSON string (section 7 of
      RFC 8259) counts like any other. */
  function Depth(text: string, j: int, end: int): int
    requires 0 <= j <= end <= |text|
    decreases end - j
  {
    if j == end then 0
    else Depth(text, j + 1, end) + (if text[j] == '}' then 1 else if text[j] == '{' then -1 else 0)
  }

  /** `end` is just past the last closing brace of the text. */
  predicate LastClosing(text: string, end: int) {
    && 0 < end <= |text| && text[end - 1] == '}'
    && forall k :: end <= k < |text| ==> text[k] != '}'
  }

  /** `text[j..end]` is balanced and no proper suffix of it is. */
  predicate Balances(text: string, j: int, end: int) {
    && 0 <= j < end <= |text| && Depth(text, j, end) == 0
    && forall k :: j < k < end ==> Depth(text, k, end) != 0
  }

  predicate Candidate(text: string, j: int, end: int) {
    LastClosing(text, end) && Balances(text, j, end)
  }

  /** What the extractor may return: the one candidate if it parses, otherwise nothing. */
  ghost predicate Extracts(text: string, valid: string -> bool, r: Option<string>) {
    && (r.Some? ==> exists j, end :: Candidate(text, j, end) && r.value == text[j..end] && valid(r.value))
    && (r.None? ==> forall j, end :: Candidate(text, j, end) ==> !valid(text[j..end]))
  }

  lemma OneLastClosing(text: string, end: int, end': int)
    requires LastClosing(text, end) && LastClosing(text, end')
    ensures end == end'
  {
    assert text[end - 1] == '}' && text[end' - 1] == '}';
  }

  /** A text has at most one candidate. */
  lemma OneCandidate(text: string, j: int, end: int, j': int, end': int)
    requires Candidate(text, j, end) && Candidate(text, j', end')
    ensures end == end' && j == j'
  {
    OneLastClosing(text, end, end');
    assert Depth(text, j, end) == 0 && Depth(text, j', end) == 0;
  }

  /** The inner loop: back from the closing brace to where the depth first returns to zero. */
  method MatchingOpening(text: string, end: int) returns (j: int)
    requires 0 < end <= |text| && text[end - 1] == '}'
    ensures -1 <= j < end
    ensures j >= 0 ==> Balances(text, j, end) && text[j] == '{'
    ensures j < 0 ==> forall k :: 0 <= k < end ==> Depth(text, k, end) > 0
  {
    var depth := 0;
    j := end - 1;
    while j >= 0
      invariant -1 <= j < end
      invariant depth == Depth(text, j + 1, end)
      invariant j < end - 1 ==> depth > 0
      invariant forall k :: j < k < end ==> Depth(text, k, end) > 0
    {
      if text[j] == '}' {
        depth := depth + 1;
      } else if text[j] == '{' {
        depth := depth - 1;
        if depth == 0 {
          return;
        }
      }
      j := j - 1;
    }
  }

  /** The outer loop stops at the last closing brace, whatever the inner loop found. */
  method ExtractJsonObject(text: string, valid: string -> bool) returns (r: Option<string>)
    ensures Extracts(text, valid, r)
    ensures r.Some? ==> r.value != [] && r.value[0] == '{' && r.value[|r.value| - 1] == '}'
  {
    var end := |text|;
    while end > 0
      invariant 0 <= end <= |text|
      invariant forall k :: end <= k < |text| ==> text[k] != '}'
    {
      if text[end - 1] == '}' {
        var j := MatchingOpening(text, end);
        if j >= 0 {
          assert Candidate(text, j, end);
        }
        forall j', end' | Candidate(text, j', end') ensures j >= 0 && j' == j && end' == end {
          OneLastClosing(text, end, end');
          assert Depth(text, j', end) == 0;
          if j >= 0 {
            OneCandidate(text, j, end, j', end');
          }
        }
        return if j >= 0 && valid(text[j..end]) then Some(text[j..end]) else None;
      }
      end := end - 1;
    }
    return None;
  }

  /** How many more closing than opening braces a string has. */
  function Excess(s: string): int {
    multiset(s)['}'] as int - multiset(s)['{'] as int
  }

  /** The depth of a stretch is how many more closing than opening braces it has. */
  lemma {:induction false} DepthCounts(text: string, j: int, end: int)
    requires 0 <= j <= end <= |text|
    ensures Depth(text, j, end) == Excess(text[j..end])
    decreases end - j
  {
    if j < end {
      DepthCounts(text, j + 1, end);
      assert text[j..end] == [text[j]] + text[j + 1..end];
    }
  }

  /** What is extracted starts at an opening and ends at the last closing brace of the text, has as many of
      one as of the other, and no proper suffix of it does. */
  lemma ExtractedIsBalanced(text: string, valid: string -> bool, r: string)
    requires Extracts(text, valid, Some(r))
    ensures valid(r)
    ensures exists j, end :: (
      && 0 <= j < end <= |text| && r == text[j..end] && text[end - 1] == '}' && text[j] == '{' && Excess(r) == 0
      && (forall k :: end <= k < |text| ==> text[k] != '}')
      && forall k :: j < k < end ==> Excess(text[k..end]) != 0)
  {
    var j, end :| Candidate(text, j, end) && r == text[j..end];
    forall k | j <= k < end ensures Depth(text, k, end) == Excess(text[k..end]) {
      DepthCounts(text, k, end);
    }
    ExtractedOpens(text, j, end);
  }

  /** When nothing is extracted, no such stretch of the text parses. */
  lemma NothingToExtract(text: string, valid: string -> bool, j: int, end: int)
    requires Extracts(text, valid, None) && 0 <= j < end <= |text| && text[end - 1] == '}'
    requires forall k :: end <= k < |text| ==> text[k] != '}'
    requires Excess(text[j..end]) == 0 && forall k :: j < k < end ==> Excess(text[k..end]) != 0
    ensures !valid(text[j..end])
  {
    forall k | j <= k < end ensures Depth(text, k, end) == Excess(text[k..end]) {
      DepthCounts(text, k, end);
    }
    assert Candidate(text, j, end);
  }

  lemma ExtractedOpens(text: string, j: int, end: int)
    requires Candidate(text, j, end)
    ensures text[j] == '{'
  {
    DepthPositive(text, j + 1, end);
    assert Depth(text, j, end) == 0;
  }

  lemma {:induction false} DepthPositive(text: string, j: int, end: int)
    requires 0 < j <= end <= |text| && text[end - 1] == '}'
    requires forall k :: j <= k < end ==> Depth(text, k, end) != 0
    ensures j < end ==> Depth(text, j, end) > 0
    decreases end - j
  {
    if j < end - 1 {
      DepthPositive(text, j + 1, end);
    }
  }

  predicate BackwardMinimal(obj: string) {
    Balances(obj, 0, |obj|)
  }

  lemma {:induction false} DepthShift(text: string, pre: int, obj: string, j: int)
    requires 0 <= pre && pre + |obj| <= |text| && text[pre..pre + |obj|] == obj && 0 <= j <= |obj|
    ensures Depth(text, pre + j, pre + |obj|) == Depth(obj, j, |obj|)
    decreases |obj| - j
  {
    if j < |obj| {
      assert text[pre + j] == text[pre..pre + |obj|][j];
      DepthShift(text, pre, obj, j + 1);
    }
  }

  lemma BalancesShift(text: string, pre: int, obj: string)
    requires 0 <= pre && pre + |obj| <= |text| && text[pre..pre + |obj|] == obj
    ensures Balances(text, pre, pre + |obj|) <==> BackwardMinimal(obj)
  {
    forall j | 0 <= j <= |obj| ensures Depth(text, pre + j, pre + |obj|) == Depth(obj, j, |obj|) {
      DepthShift(text, pre, obj, j);
    }
    if Balances(text, pre, pre + |obj|) {
      forall k | 0 < k < |obj| ensures Depth(obj, k, |obj|) != 0 {
        assert Depth(text, pre + k, pre + |obj|) != 0;
      }
    } else if BackwardMinimal(obj) {
      var end := pre + |obj|;
      forall k | pre < k < end ensures Depth(text, k, end) != 0 {
        assert Depth(obj, k - pre, |obj|) == Depth(text, pre + (k - pre), end);
      }
    }
  }

  /** The extractor finds a valid object that holds the last closing brace of the text exactly when
      the object, read backwards and with braces in strings counted, first balances at its start. */
  lemma FindsObjectExactlyWhen(
    pre: string, obj: string, post: string, valid: string -> bool, r: Option<string>)
    requires obj != [] && obj[|obj| - 1] == '}' && '}' !in post && valid(obj)
    requires Extracts(pre + obj + post, valid, r)
    ensures r == Some(obj) <==> BackwardMinimal(obj)
  {
    var text := pre + obj + post;
    var end := |pre| + |obj|;
    assert text[|pre|..end] == obj;
    BalancesShift(text, |pre|, obj);
    assert text[end - 1] == obj[|obj| - 1];
    assert LastClosing(text, end) by {
      forall k | end <= k < |text| ensures text[k] != '}' { assert text[k] == post[k - end]; }
    }
    if BackwardMinimal(obj) {
      assert Candidate(text, |pre|, end);
    }
    if r.Some? {
      var j', end' :| Candidate(text, j', end') && r.value == text[j'..end'];
      OneLastClosing(text, end, end');
      if BackwardMinimal(obj) {
        OneCandidate(text, |pre|, end, j', end');
      }
    }
  }

  /** Earlier closing braces are never tried: one stray closing brace after a text that, read
      backwards, never opens more than it closes hides every object in it, whatever parses. */
  lemma StrayClosingHidesAll(body: string, valid: string -> bool, r: Option<string>)
    requires forall k :: 0 <= k <= |body| ==> Depth(body, k, |body|) >= 0
    requires Extracts(body + "}", valid, r)
    ensures r.None?
  {
    var text := body + "}";
    if r.Some? {
      var j, end :| Candidate(text, j, end) && r.value == text[j..end];
      OneLastClosing(text, end, |text|);
      DepthAppend(text, body, j);
    }
  }

  lemma {:induction false} DepthAppend(text: string, body: string, j: int)
    requires |text| == |body| + 1 && text[..|body|] == body && text[|body|] == '}' && 0 <= j <= |body|
    ensures Depth(text, j, |text|) == Depth(body, j, |body|) + 1
    decreases |body| - j
  {
    if j < |body| {
      assert text[j] == text[..|body|][j];
      DepthAppend(text, body, j + 1);
    } else {
      assert Depth(text, |text|, |text|) == 0;
    }
  }
}
