/**
 * The correlation key between an RFP and the replies to it (email.service.js):
 * the outbound subject carries the RFP's id, and extractRfpId finds the
 * leftmost run of 24 hexadecimal characters in an inbound subject,
 * matched case-insensitively (the regular expression /[a-f0-9]{24}/i).
 */
module Correlation {
  import opened Wrappers
  import opened Text
  import opened Model

  const IdLength: nat := 24

  /** 24 hexadecimal characters start at position i of s. */
  predicate HexWindowAt(s: string, i: nat) {
    i + IdLength <= |s| && forall j :: i <= j < i + IdLength ==> IsHexDigit(s[j])
  }

  /** i is the leftmost such position. */
  ghost predicate LeftmostWindow(s: string, i: nat) {
    HexWindowAt(s, i) && forall j: nat :: j < i ==> !HexWindowAt(s, j)
  }

  /** Leftmost position at or after `from` where a window starts. */
  function FirstHexWindow(s: string, from: nat): (r: Option<nat>)
    ensures r.Some? ==> from <= r.value && HexWindowAt(s, r.value)
                        && forall j: nat :: from <= j < r.value ==> !HexWindowAt(s, j)
    ensures r.None? ==> forall j: nat :: from <= j ==> !HexWindowAt(s, j)
    decreases |s| - from
  {
    if from + IdLength > |s| then None
    else if HexWindowAt(s, from) then Some(from)
    else FirstHexWindow(s, from + 1)
  }

  /**
   * extractRfpId: null for a missing or empty subject; otherwise the leftmost
   * 24-character hexadecimal window, copied verbatim, or null if there is none.
   */
  function ExtractRfpId(subject: Option<string>): (r: Option<string>)
    ensures subject.None? || subject.value == "" ==> r.None?
    ensures r.Some? <==> subject.Some? && exists i: nat :: HexWindowAt(subject.value, i)
    ensures r.Some? ==> |r.value| == IdLength && (forall k :: 0 <= k < |r.value| ==> IsHexDigit(r.value[k]))
    ensures r.Some? ==> exists i: nat :: LeftmostWindow(subject.value, i) && r.value == subject.value[i..i + IdLength]
  {
    if subject.None? || subject.value == "" then None
    else
      var s := subject.value;
      match FirstHexWindow(s, 0)
      case None => None
      case Some(i) =>
        assert LeftmostWindow(s, i);
        Some(s[i..i + IdLength])
  }

  /** The text of the outbound subject before the RFP id. */
  function SubjectHead(title: string): string {
    "Request for Proposal: " + title + " - "
  }

  /** The subject of the RFP email sent to each vendor (email.service.js line 36): the id comes last. */
  function Subject(title: string, id: RfpId): (s: string)
    ensures |s| > |id| && s[|s| - |id|..] == id
  {
    var head := SubjectHead(title);
    assert (head + id)[|head|..] == id;
    head + id
  }

  predicate IsObjectId(id: string) {
    |id| == IdLength && forall k :: 0 <= k < |id| ==> IsHexDigit(id[k])
  }

  /**
   * An id placed right after text that holds no window and ends in a character
   * that is not a hexadecimal digit is the id extractRfpId returns.
   */
  lemma {:induction false} IdAfterSeparator(pre: string, id: RfpId)
    requires IsObjectId(id)
    requires |pre| > 0 && !IsHexDigit(pre[|pre| - 1])
    requires forall i: nat :: !HexWindowAt(pre, i)
    ensures ExtractRfpId(Some(pre + id)) == Some(id)
  {
    var s := pre + id;
    var k := |pre|;
    assert s[k..] == id;
    assert HexWindowAt(s, k) by {
      forall j | k <= j < k + IdLength ensures IsHexDigit(s[j]) {
        assert s[j] == id[j - k];
      }
    }
    forall j: nat | j < k ensures !HexWindowAt(s, j) {
      if j + IdLength <= k {
        if HexWindowAt(s, j) {
          forall m | j <= m < j + IdLength ensures IsHexDigit(pre[m]) {
            assert pre[m] == s[m];
          }
          assert HexWindowAt(pre, j);
        }
      } else {
        assert s[k - 1] == pre[k - 1];
      }
    }
    match FirstHexWindow(s, 0)
    case None =>
    case Some(i) =>
      assert i == k;
      assert s[k..k + IdLength] == id;
      assert ExtractRfpId(Some(s)) == Some(s[i..i + IdLength]);
  }

  /** The head of the outbound subject holds no window as long as the title holds none. */
  lemma {:induction false} SubjectHeadHasNoWindow(title: string)
    requires forall i: nat :: !HexWindowAt(title, i)
    ensures var pre := SubjectHead(title);
      && |pre| > 0 && !IsHexDigit(pre[|pre| - 1])
      && forall i: nat :: !HexWindowAt(pre, i)
  {
    var pre := SubjectHead(title);
    var t := |title|;
    assert |pre| == 25 + t;
    assert pre[21] == ' ' && pre[22 + t] == ' ' && pre[24 + t] == ' ';
    forall j: nat | j + IdLength <= |pre| ensures !HexWindowAt(pre, j) {
      if 22 <= j && j + IdLength <= 22 + t {
        if HexWindowAt(pre, j) {
          forall m | j - 22 <= m < j - 22 + IdLength ensures IsHexDigit(title[m]) {
            assert title[m] == pre[m + 22];
          }
          assert HexWindowAt(title, j - 22);
        }
      } else if j < 22 {
        assert !IsHexDigit(pre[21]);
      } else {
        assert !IsHexDigit(pre[22 + t]);
      }
    }
  }

  /**
   * Round trip: a reply that keeps the outbound subject is matched to the RFP it
   * was sent for, provided the title itself holds no 24-character hexadecimal run.
   */
  lemma SubjectRoundTrip(title: string, id: RfpId)
    requires IsObjectId(id)
    requires forall i: nat :: !HexWindowAt(title, i)
    ensures ExtractRfpId(Some(Subject(title, id))) == Some(id)
  {
    SubjectHeadHasNoWindow(title);
    IdAfterSeparator(SubjectHead(title), id);
  }

  /**
   * Window-free text that ends in a character that is not a hexadecimal digit,
   * followed by more window-free text, holds no window either.
   */
  lemma NoWindowAcross(a: string, b: string)
    requires |a| > 0 && !IsHexDigit(a[|a| - 1])
    requires forall i: nat :: !HexWindowAt(a, i)
    requires forall i: nat :: !HexWindowAt(b, i)
    ensures forall i: nat :: !HexWindowAt(a + b, i)
  {
    var s, k := a + b, |a|;
    forall i: nat ensures !HexWindowAt(s, i) {
      if i + IdLength <= k {
        if HexWindowAt(s, i) {
          forall m | i <= m < i + IdLength ensures IsHexDigit(a[m]) {
            assert a[m] == s[m];
          }
          assert HexWindowAt(a, i);
        }
      } else if k <= i {
        if HexWindowAt(s, i) {
          forall m | i - k <= m < i - k + IdLength ensures IsHexDigit(b[m]) {
            assert b[m] == s[m + k];
          }
          assert HexWindowAt(b, i - k);
        }
      } else {
        assert s[k - 1] == a[k - 1];
      }
    }
  }

  /**
   * The round trip survives what a mail client puts in front of the subject
   * ("Re: ", "RE: ", "Fwd: "): any prefix without a window that ends in a
   * character that is not a hexadecimal digit.
   */
  lemma ReplySubjectRoundTrip(prefix: string, title: string, id: RfpId)
    requires IsObjectId(id)
    requires forall i: nat :: !HexWindowAt(title, i)
    requires |prefix| > 0 && !IsHexDigit(prefix[|prefix| - 1])
    requires forall i: nat :: !HexWindowAt(prefix, i)
    ensures ExtractRfpId(Some(prefix + Subject(title, id))) == Some(id)
  {
    var head := SubjectHead(title);
    SubjectHeadHasNoWindow(title);
    NoWindowAcross(prefix, head);
    var pre := prefix + head;
    assert pre[|pre| - 1] == head[|head| - 1];
    IdAfterSeparator(pre, id);
    assert pre + id == prefix + Subject(title, id);
  }

  /** A subject without a 24-character hexadecimal run can never be matched to an RFP. */
  lemma NoWindowNoMatch(subject: string)
    requires forall i: nat :: !HexWindowAt(subject, i)
    ensures ExtractRfpId(Some(subject)).None?
  {
  }

  /** Hex digits are matched in either case and copied as they are. */
  lemma UpperCaseIdIsKept()
    ensures ExtractRfpId(Some("Re: 65A1B2C3D4E5F60718293A4B")) == Some("65A1B2C3D4E5F60718293A4B")
  {
    var id := "65A1B2C3D4E5F60718293A4B";
    assert IsObjectId(id);
    assert "Re: " + id == "Re: 65A1B2C3D4E5F60718293A4B";
    IdAfterSeparator("Re: ", id);
  }
}
