/**
 String literals, as section 2.9.4 of the GraphQL specification, October 2021, delimits them: a string ends at the first
 quote that no backslash escapes, a block string at the first three quotes that are not escaped together. As in the
 hub, a string may run over the end of a line.

 The grammar comes first. `StringLiteralLen`, at the end, is the scanning loop of the hub, proved to compute what the
 grammar says.
 */
module Lexer {
  import opened Options

  // ----- Literals -----

  predicate QuotesAt(text: string, i: nat) {
    i + 3 <= |text| && text[i] == '"' && text[i + 1] == '"' && text[i + 2] == '"'
  }

  predicate EscapedQuotesAt(text: string, i: nat) {
    i < |text| && text[i] == '\\' && QuotesAt(text, i + 1)
  }

  /** Where a block string whose body is read from `i` on ends, its closing quotes included. */
  function BlockEnd(body: string, i: nat): (end: Option<nat>)
    requires i <= |body|
    ensures end.Some? ==> i + 3 <= end.value <= |body|
    decreases |body| - i
  {
    if i == |body| then None
    else if QuotesAt(body, i) then Some(i + 3)
    else if EscapedQuotesAt(body, i) then BlockEnd(body, i + 4)
    else BlockEnd(body, i + 1)
  }

  /** The same for an ordinary string, in which a backslash escapes the character after it. */
  function QuotedEnd(body: string, i: nat): (end: Option<nat>)
    requires i <= |body|
    ensures end.Some? ==> i + 1 <= end.value <= |body|
    decreases |body| - i
  {
    if i == |body| then None
    else if body[i] == '"' then Some(i + 1)
    else if body[i] == '\\' && i + 2 <= |body| then QuotedEnd(body, i + 2)
    else QuotedEnd(body, i + 1)
  }

  /** Where the literal that `text` starts with ends, if it is closed. */
  function ClosedEnd(text: string): (end: Option<nat>)
    requires |text| > 0 && text[0] == '"'
    ensures end.Some? ==> 2 <= end.value <= |text|
  {
    if QuotesAt(text, 0) then BlockEnd(text, 3) else QuotedEnd(text, 1)
  }

  /** Length of the literal `text` starts with. An unterminated literal extends to the end of the text. */
  function LiteralLen(text: string): (length: Option<nat>)
    ensures length.Some? <==> |text| > 0 && text[0] == '"'
    ensures length.Some? ==> 1 <= length.value <= |text|
  {
    if |text| == 0 || text[0] != '"' then None
    else Some(match ClosedEnd(text) case Some(end) => end case None => |text|)
  }

  /** A literal that its own closing quotes end, so that nothing written after it can become part of it. */
  predicate Terminated(literal: string) {
    |literal| > 0 && literal[0] == '"' && ClosedEnd(literal) == Some(|literal|)
  }

  lemma {:induction false} BlockEndStable(body: string, i: nat, other: string)
    requires i <= |body| && BlockEnd(body, i).Some?
    requires var end := BlockEnd(body, i).value; end <= |other| && other[..end] == body[..end]
    ensures BlockEnd(other, i) == BlockEnd(body, i)
    decreases |body| - i
  {
    var end := BlockEnd(body, i).value;
    assert forall k :: 0 <= k < end ==> other[..end][k] == body[..end][k];
    assert forall k :: 0 <= k < end ==> other[k] == body[k];
    if QuotesAt(body, i) {
    } else if EscapedQuotesAt(body, i) {
      BlockEndStable(body, i + 4, other);
    } else {
      BlockEndStable(body, i + 1, other);
    }
  }

  lemma {:induction false} QuotedEndStable(body: string, i: nat, other: string)
    requires i <= |body| && QuotedEnd(body, i).Some?
    requires var end := QuotedEnd(body, i).value; end <= |other| && other[..end] == body[..end]
    ensures QuotedEnd(other, i) == QuotedEnd(body, i)
    decreases |body| - i
  {
    var end := QuotedEnd(body, i).value;
    assert forall k :: 0 <= k < end ==> other[..end][k] == body[..end][k];
    assert forall k :: 0 <= k < end ==> other[k] == body[k];
    if body[i] == '"' {
    } else if body[i] == '\\' && i + 2 <= |body| {
      QuotedEndStable(body, i + 2, other);
    } else {
      QuotedEndStable(body, i + 1, other);
    }
  }

  /** What follows a terminated literal does not change where it ends, but `""` and a quote open a block string. */
  lemma LiteralStable(literal: string, tail: string)
    requires Terminated(literal)
    requires |literal| == 2 ==> |tail| == 0 || tail[0] != '"'
    ensures LiteralLen(literal + tail) == Some(|literal|)
  {
    var text := literal + tail;
    assert text[..|literal|] == literal == literal[..|literal|];
    assert forall k :: 0 <= k < |literal| ==> text[k] == literal[k];
    assert |literal| == 2 && |tail| > 0 ==> text[2] == tail[0];
    assert QuotesAt(text, 0) == QuotesAt(literal, 0);
    if QuotesAt(literal, 0) {
      BlockEndStable(literal, 3, text);
    } else {
      QuotedEndStable(literal, 1, text);
    }
  }

  /** A literal that is followed by anything at all was closed. */
  lemma FollowedLiteralIsTerminated(text: string)
    requires LiteralLen(text).Some? && LiteralLen(text).value < |text|
    ensures Terminated(text[..LiteralLen(text).value])
    ensures LiteralLen(text).value == 2 ==> text[2] != '"'
  {
    var end := LiteralLen(text).value;
    var literal := text[..end];
    assert literal[..end] == text[..end];
    if QuotesAt(text, 0) {
      BlockEndStable(text, 3, literal);
    } else {
      QuotedEndStable(text, 1, literal);
      assert !QuotesAt(literal, 0);
    }
  }

  /** The first three quotes from `i` on close a block string, unless the character before them escapes them. */
  lemma {:induction false} BlockEndAtFirstQuotes(body: string, i: nat, found: nat)
    requires i <= found && QuotesAt(body, found)
    requires forall k :: i <= k < found ==> !QuotesAt(body, k)
    ensures BlockEnd(body, i) ==
            if found > i && body[found - 1] == '\\' then BlockEnd(body, found + 3) else Some(found + 3)
    decreases found - i
  {
    if i < found && !EscapedQuotesAt(body, i) {
      BlockEndAtFirstQuotes(body, i + 1, found);
    }
  }

  lemma {:induction false} BlockEndWithoutQuotes(body: string, i: nat)
    requires i <= |body| && forall k :: i <= k <= |body| ==> !QuotesAt(body, k)
    ensures BlockEnd(body, i) == None
    decreases |body| - i
  {
    if i < |body| {
      BlockEndWithoutQuotes(body, i + 1);
    }
  }

  /** How many backslashes stand directly before `k`, those before `from` not counted. */
  function BackslashesBefore(body: string, from: nat, k: nat): nat
    requires from <= k <= |body|
  {
    if k > from && body[k - 1] == '\\' then 1 + BackslashesBefore(body, from, k - 1) else 0
  }

  /** A quote that no backslash escapes. */
  predicate Unescaped(body: string, from: nat, k: nat) {
    from <= k < |body| && body[k] == '"' && BackslashesBefore(body, from, k) % 2 == 0
  }

  lemma {:induction false} EscapeSkips(body: string, i: nat, k: nat)
    requires i + 2 <= k <= |body| && body[i] == '\\'
    ensures BackslashesBefore(body, i, k) % 2 == BackslashesBefore(body, i + 2, k) % 2
    decreases k
  {
    if k > i + 2 && body[k - 1] == '\\' {
      EscapeSkips(body, i, k - 1);
    } else if k == i + 2 && body[i + 1] == '\\' {
      assert BackslashesBefore(body, i, i + 1) == 1;
      assert BackslashesBefore(body, i, k) == 2;
    }
  }

  lemma {:induction false} PlainSkips(body: string, i: nat, k: nat)
    requires i + 1 <= k <= |body| && body[i] != '\\'
    ensures BackslashesBefore(body, i, k) == BackslashesBefore(body, i + 1, k)
    decreases k
  {
    if k > i + 1 {
      PlainSkips(body, i, k - 1);
    }
  }

  /** No unescaped quote lies from `from` up to, but not at, `end`. */
  predicate NoneUnescaped(body: string, from: nat, end: nat) {
    forall k: nat :: from <= k < end ==> !Unescaped(body, from, k)
  }

  /**
   An ordinary string ends with the first quote that has an even number of backslashes directly before it, and is not
   closed if and only if there is none.
   */
  lemma {:induction false} QuotedEndAtFirstUnescaped(body: string, i: nat)
    requires i <= |body|
    ensures match QuotedEnd(body, i)
            case Some(end) => Unescaped(body, i, end - 1) && NoneUnescaped(body, i, end - 1)
            case None => NoneUnescaped(body, i, |body|)
    decreases |body| - i
  {
    if i < |body| && body[i] != '"' {
      var next := if body[i] == '\\' && i + 2 <= |body| then i + 2 else i + 1;
      QuotedEndAtFirstUnescaped(body, next);
      forall k: nat | i <= k < |body|
        ensures Unescaped(body, i, k) <==> Unescaped(body, next, k)
      {
        SkippedAlike(body, i, next, k);
      }
      hide Unescaped;
    }
  }

  lemma SkippedAlike(body: string, i: nat, next: nat, k: nat)
    requires i <= k < |body| && body[i] != '"'
    requires next == if body[i] == '\\' && i + 2 <= |body| then i + 2 else i + 1
    ensures Unescaped(body, i, k) <==> Unescaped(body, next, k)
  {
    if k >= next && next == i + 2 {
      EscapeSkips(body, i, k);
    } else if k >= next {
      PlainSkips(body, i, k);
    } else if k == i + 1 {
      assert BackslashesBefore(body, i, i) == 0;
      assert BackslashesBefore(body, i, k) == 1;
    }
  }

  /** Offset of the first `"""` at or after `from`, as `str::find` reports it. */
  function FindQuotes(body: string, from: nat): (found: Option<nat>)
    requires from <= |body|
    ensures found.Some? ==> from <= found.value && QuotesAt(body, found.value)
                            && forall k :: from <= k < found.value ==> !QuotesAt(body, k)
    ensures found.None? ==> forall k :: from <= k <= |body| ==> !QuotesAt(body, k)
    decreases |body| - from
  {
    if from == |body| then None else if QuotesAt(body, from) then Some(from) else FindQuotes(body, from + 1)
  }

  lemma {:induction false} BlockEndShift(text: string, i: nat)
    requires 3 <= |text| && i <= |text| - 3
    ensures BlockEnd(text, i + 3) == (match BlockEnd(text[3..], i) case Some(end) => Some(end + 3) case None => None)
    decreases |text| - i
  {
    var body := text[3..];
    assert QuotesAt(body, i) == QuotesAt(text, i + 3);
    assert EscapedQuotesAt(body, i) == EscapedQuotesAt(text, i + 3) by {
      assert QuotesAt(body, i + 1) == QuotesAt(text, i + 4);
    }
    if i < |body| && !QuotesAt(body, i) {
      BlockEndShift(text, if EscapedQuotesAt(body, i) then i + 4 else i + 1);
    }
  }

  lemma {:induction false} QuotedEndShift(text: string, i: nat)
    requires 1 <= |text| && i <= |text| - 1
    ensures QuotedEnd(text, i + 1) == (match QuotedEnd(text[1..], i) case Some(end) => Some(end + 1) case None => None)
    decreases |text| - i
  {
    var body := text[1..];
    if i < |body| && body[i] != '"' {
      QuotedEndShift(text, if body[i] == '\\' && i + 2 <= |body| then i + 2 else i + 1);
    }
  }

  method BlockLiteralLen(text: string) returns (length: nat)
    requires QuotesAt(text, 0)
    ensures LiteralLen(text) == Some(length)
  {
    var body := text[3..];
    BlockEndShift(text, 0);
    var offset := 0;
    var found := FindQuotes(body, offset);
    while found.Some?
      invariant offset <= |body| && found == FindQuotes(body, offset)
      invariant offset > 0 ==> body[offset - 1] == '"'
      invariant BlockEnd(body, 0) == BlockEnd(body, offset)
      decreases |body| - offset
    {
      var end := found.value;
      BlockEndAtFirstQuotes(body, offset, end);
      if end == 0 || body[end - 1] != '\\' {
        return 3 + end + 3;
      }
      offset := end + 3;
      found := FindQuotes(body, offset);
    }
    BlockEndWithoutQuotes(body, offset);
    return |text|;
  }

  method QuotedLiteralLen(text: string) returns (length: nat)
    requires |text| > 0 && text[0] == '"' && !QuotesAt(text, 0)
    ensures LiteralLen(text) == Some(length)
  {
    var body := text[1..];
    QuotedEndShift(text, 0);
    var escaped := false;
    for offset := 0 to |body|
      invariant escaped ==> offset > 0 && body[offset - 1] == '\\'
      invariant QuotedEnd(body, 0) == QuotedEnd(body, if escaped then offset - 1 else offset)
    {
      if escaped {
        escaped := false;
      } else if body[offset] == '\\' {
        escaped := true;
      } else if body[offset] == '"' {
        return 1 + offset + 1;
      }
    }
    return |text|;
  }

  /** Returns the length of the string literal that `text` starts with, if it starts with one. */
  method StringLiteralLen(text: string) returns (length: Option<nat>)
    ensures length == LiteralLen(text)
  {
    if QuotesAt(text, 0) {
      var n := BlockLiteralLen(text);
      return Some(n);
    }
    if |text| == 0 || text[0] != '"' {
      return None;
    }
    var n := QuotedLiteralLen(text);
    return Some(n);
  }
}
