/**
 * The paid resource itself (apps/resource-server/src/premium/summarize.ts):
 * the first 200 UTF-16 code units of `input.text`, with `...` appended when
 * the text was longer, and the text's `length`.
 *
 * JavaScript measures and slices strings in UTF-16 code units, while a Dafny
 * `char` is a Unicode scalar value; a character above the Basic Multilingual
 * Plane counts as two code units here.
 */
module Summarize {
  import opened Wrappers
  import opened Json

  const LIMIT: nat := 200

  /** The UTF-16 code units of one character: two for a surrogate pair. */
  function Units(c: char): (n: nat)
    ensures n == 1 || n == 2
    ensures n == 2 <==> c as int >= 0x1_0000
  {
    if c as int >= 0x1_0000 then 2 else 1
  }

  /** JavaScript's `s.length`. */
  function Utf16Length(s: string): nat {
    if s == [] then 0 else Units(s[0]) + Utf16Length(s[1..])
  }

  /** Every character lies in the Basic Multilingual Plane. */
  predicate InBmp(s: string) {
    forall i :: 0 <= i < |s| ==> s[i] as int < 0x1_0000
  }

  /** The code units of a text of the Basic Multilingual Plane are its characters. */
  lemma {:induction false} BmpLength(s: string)
    requires InBmp(s)
    ensures Utf16Length(s) == |s|
  {
    if s != [] {
      assert InBmp(s[1..]) by {
        forall i | 0 <= i < |s[1..]| ensures s[1..][i] as int < 0x1_0000 {
          assert s[1..][i] == s[i + 1];
        }
      }
      BmpLength(s[1..]);
    }
  }

  /**
   * `s.slice(0, n)` as far as whole characters go: the longest prefix of at
   * most `n` code units. It stops one unit short when unit `n` is the first
   * half of a surrogate pair.
   */
  function Utf16Prefix(s: string, n: nat): (p: string)
    ensures p <= s
    ensures Utf16Length(p) <= n
    ensures p != s ==> Utf16Length(p) + Units(s[|p|]) > n
    decreases |s|
  {
    if s == [] || Units(s[0]) > n then []
    else
      var rest := Utf16Prefix(s[1..], n - Units(s[0]));
      var p := [s[0]] + rest;
      assert p[1..] == rest;
      assert p != s ==> rest != s[1..] && s[|p|] == s[1..][|rest|] by {
        if rest == s[1..] { assert p == [s[0]] + s[1..] == s; }
      }
      p
  }

  /** The summary of a string text. */
  function SummaryOfText(text: string): (summary: string)
    ensures Utf16Length(text) <= LIMIT ==> summary == text
    ensures Utf16Length(text) > LIMIT ==>
      && |summary| >= 3 && summary[|summary| - 3..] == "..."
      && var kept := summary[..|summary| - 3];
         kept < text && LIMIT - 1 <= Utf16Length(kept) <= LIMIT
  {
    if Utf16Length(text) > LIMIT then
      var kept := Utf16Prefix(text, LIMIT);
      var summary := kept + "...";
      assert summary[..|summary| - 3] == kept;
      summary
    else text
  }

  /** For text of the Basic Multilingual Plane, code units are characters: longer text keeps exactly 200 of them. */
  lemma BmpSummary(text: string)
    requires InBmp(text)
    ensures |text| <= LIMIT ==> SummaryOfText(text) == text
    ensures |text| > LIMIT ==> SummaryOfText(text) == text[..LIMIT] + "..."
  {
    BmpLength(text);
    if |text| > LIMIT {
      var kept := Utf16Prefix(text, LIMIT);
      assert kept == text[..|kept|];
      assert InBmp(kept) by {
        forall i | 0 <= i < |kept| ensures kept[i] as int < 0x1_0000 {
          assert kept[i] == text[i];
        }
      }
      BmpLength(kept);
      assert |kept| < |text|;
    }
  }

  /**
   * `length > 200` for the `length` property of an object text. An absent
   * property (`undefined`), a boolean or `null` compares as NaN, 0 or 1, so
   * never above 200; a number compares as itself; for a string, array or
   * object JavaScript first converts it to a number, and `exceeds` gives that
   * comparison.
   */
  function LengthExceeds(len: Option<Json>, exceeds: Json -> bool): (r: bool)
    ensures len.None? || len == Some(JNull) || (len.Some? && len.value.JBool?) ==> !r
    ensures len.Some? && len.value.JNum? ==> (r <==> len.value.n > LIMIT)
  {
    match len
    case None => false
    case Some(JNum(n)) => n > LIMIT
    case Some(JBool(_)) => false
    case Some(JNull) => false
    case Some(j) => exceeds(j)
  }

  /** `{summary, length}` where an `undefined` length is dropped by `JSON.stringify`. */
  function Reply(summary: Json, length: Option<Json>): Json {
    if length.Some? then JObj(map["summary" := summary, "length" := length.value])
    else JObj(map["summary" := summary])
  }

  /**
   * `summarize(input)`: `text = input?.text || ''`. For a string text the
   * reply is `{summary, length}`. A truthy text that is not a string keeps
   * JavaScript's behaviour. An array has a `length`, and a longer array is
   * cut to 200 elements and joined into text by `toText` (`String` of the
   * slice). An object's `length` is its `length` property, and when that
   * exceeds 200 the call to its missing `slice` method throws a `TypeError`
   * (`Err`). A number or `true` has no `length`, so it is returned as the
   * summary and `length` is dropped.
   */
  function SummarizeInput(input: Option<Json>, toText: Json -> string, exceeds: Json -> bool)
    : (reply: Result<Json, string>)
    ensures var t := Or(Get(input, "text"), JStr(""));
      t.JStr? ==> reply == Ok(JObj(map["summary" := JStr(SummaryOfText(t.s)), "length" := JNum(Utf16Length(t.s))]))
    ensures !TruthyOpt(Get(input, "text")) ==> reply == Ok(JObj(map["summary" := JStr(""), "length" := JNum(0)]))
    ensures reply.Err? <==>
      var t := Or(Get(input, "text"), JStr(""));
      t.JObj? && LengthExceeds(Get(Some(t), "length"), exceeds)
    ensures var t := Or(Get(input, "text"), JStr(""));
      t.JObj? && reply.Ok? ==> reply.value == Reply(t, Get(Some(t), "length"))
    ensures var t := Or(Get(input, "text"), JStr(""));
      t.JArr? ==> reply.Ok? && Get(Some(reply.value), "length") == Some(JNum(|t.items|))
  {
    var text := Or(Get(input, "text"), JStr(""));
    match text
    case JStr(s) => Ok(Reply(JStr(SummaryOfText(s)), Some(JNum(Utf16Length(s)))))
    case JArr(items) =>
      var summary := if |items| > LIMIT then JStr(toText(JArr(items[..LIMIT])) + "...") else text;
      Ok(Reply(summary, Some(JNum(|items|))))
    case JObj(fields) =>
      var length := Get(Some(text), "length");
      if LengthExceeds(length, exceeds) then Err("text.slice is not a function")
      else Ok(Reply(text, length))
    case _ => Ok(Reply(text, None))
  }
}
