/**
 * The text tests the handlers of main.py are registered with: Python's
 * `str.lower`, aiogram's `commands=[...]` filter, and the comparison of the
 * lower-cased text with the confirmation word.
 */
module Filters {

  /**
   * `str.lower` on one character, for the letters the dialogue meets: ASCII
   * capitals, the basic Cyrillic capitals U+0410..U+042F and the Cyrillic
   * capitals with diacritics U+0400..U+040F. Every other character is kept.
   */
  function LowerChar(c: char): char
  {
    if 'A' <= c <= 'Z' then (c as int + 0x20) as char
    else if 0x410 <= c as int <= 0x42F then (c as int + 0x20) as char
    else if 0x400 <= c as int <= 0x40F then (c as int + 0x50) as char
    else c
  }

  /** `str.lower`: each character mapped on its own, the length kept. */
  function Lower(s: string): (r: string)
    ensures |r| == |s|
    ensures forall i :: 0 <= i < |s| ==> r[i] == LowerChar(s[i])
  {
    if s == [] then [] else [LowerChar(s[0])] + Lower(s[1..])
  }

  /** The word `confirm_registration` waits for, in lower case. */
  const ConfirmWord: string := "подтверждаю"

  /** The filter `message.text.lower() == 'подтверждаю'`. */
  predicate IsConfirm(text: string)
    ensures IsConfirm(text) ==> |text| == |ConfirmWord|
  {
    Lower(text) == ConfirmWord
  }

  /** `c` is `w` itself or, for a basic Cyrillic small letter `w`, its capital. */
  predicate CaseVariant(c: char, w: char)
  {
    c == w || (0x430 <= w as int <= 0x44F && c as int == w as int - 0x20)
  }

  /** The characters that lower-case to a basic Cyrillic small letter are that letter and its capital. */
  lemma LowerCharToCyrillic(c: char, w: char)
    requires 0x430 <= w as int <= 0x44F
    ensures LowerChar(c) == w <==> CaseVariant(c, w)
  {
  }

  /**
   * The confirmation filter accepts exactly the texts that spell the word
   * letter by letter, each letter in either case.
   */
  lemma IsConfirmIff(text: string)
    ensures IsConfirm(text) <==>
      |text| == |ConfirmWord| && forall i :: 0 <= i < |text| ==> CaseVariant(text[i], ConfirmWord[i])
  {
    var w := ConfirmWord;
    assert w == ['п', 'о', 'д', 'т', 'в', 'е', 'р', 'ж', 'д', 'а', 'ю'];
    if |text| == |w| {
      forall i | 0 <= i < |text|
        ensures Lower(text)[i] == w[i] <==> CaseVariant(text[i], w[i])
      {
        LowerCharToCyrillic(text[i], w[i]);
      }
    }
  }

  /**
   * A character below U+0080 that `str.split()` separates on: space, tab,
   * line feed, carriage return, vertical tab, form feed and the separators
   * U+001C..U+001F.
   */
  predicate IsSpace(c: char)
  {
    c == ' ' || c == '\t' || c == '\n' || c == '\r' || c == '\U{000B}' || c == '\U{000C}' ||
    ('\U{001C}' <= c <= '\U{001F}')
  }

  /** The text without its leading whitespace. */
  function SkipSpaces(s: string): (r: string)
    ensures |r| <= |s| && r == s[|s| - |r|..]
    ensures r == [] || !IsSpace(r[0])
    ensures forall i :: 0 <= i < |s| - |r| ==> IsSpace(s[i])
  {
    if s != [] && IsSpace(s[0]) then SkipSpaces(s[1..]) else s
  }

  /** The longest prefix holding no whitespace. */
  function Word(s: string): (r: string)
    ensures |r| <= |s| && r == s[..|r|]
    ensures forall i :: 0 <= i < |r| ==> !IsSpace(r[i])
    ensures |r| == |s| || IsSpace(s[|r|])
  {
    if s == [] || IsSpace(s[0]) then [] else [s[0]] + Word(s[1..])
  }

  /** `text.split()[0]`, or the empty string where `split()` finds no part. */
  function FirstToken(text: string): string
  {
    Word(SkipSpaces(text))
  }

  /** The part before the first '@' (all of `s` when it has none). */
  function BeforeAt(s: string): (r: string)
    ensures |r| <= |s| && r == s[..|r|]
    ensures '@' !in r
    ensures |r| == |s| || s[|r|] == '@'
  {
    if s == [] || s[0] == '@' then [] else [s[0]] + BeforeAt(s[1..])
  }

  /** The part after the first '@' (empty when `s` has none). */
  function AfterAt(s: string): string
  {
    var before := BeforeAt(s);
    if |before| < |s| then s[|before| + 1..] else []
  }

  /**
   * aiogram's `commands=[command]` filter: the first word of the text is '/'
   * followed by the command in any case, optionally followed by '@' and a
   * mention, which, when not empty, must name this bot (in any case).
   */
  predicate IsCommand(text: string, command: string, botUsername: string)
    ensures IsCommand(text, command, botUsername) ==>
      exists k :: 0 <= k < |text| && text[k] == '/' && forall i :: 0 <= i < k ==> IsSpace(text[i])
    ensures IsCommand(text, command, botUsername) ==> |command| < |FirstToken(text)|
    ensures IsCommand(text, command, botUsername) ==>
      Lower(FirstToken(text)[1..|command| + 1]) == command &&
      (|FirstToken(text)| == |command| + 1 || FirstToken(text)[|command| + 1] == '@')
  {
    var token := FirstToken(text);
    |token| > 0 && token[0] == '/' &&
    var mention := AfterAt(token[1..]);
    Lower(BeforeAt(token[1..])) == command &&
    (mention == [] || Lower(mention) == Lower(botUsername))
  }

  /** The plain command text, with or without arguments, passes the `/start` filter. */
  lemma StartIsCommand(botUsername: string, arguments: string)
    ensures IsCommand("/start", "start", botUsername)
    ensures IsCommand("/start " + arguments, "start", botUsername)
  {
    StartToken(arguments);
    StartTokenIsCommand("/start", botUsername);
    StartTokenIsCommand("/start " + arguments, botUsername);
  }

  /** A text whose first word is exactly "/start" passes the `/start` filter. */
  lemma StartTokenIsCommand(text: string, botUsername: string)
    requires FirstToken(text) == "/start"
    ensures IsCommand(text, "start", botUsername)
  {
    var name := FirstToken(text)[1..];
    assert name == "start";
    BeforeAtWhole(name);
    assert AfterAt(name) == [];
    LowerKeeps(name);
  }

  /** The first word of "/start" and of "/start " followed by anything is "/start". */
  lemma StartToken(arguments: string)
    ensures FirstToken("/start") == "/start"
    ensures FirstToken("/start " + arguments) == "/start"
  {
    var t := "/start";
    assert forall i :: 0 <= i < |t| ==> !IsSpace(t[i]);
    assert t + [] == t;
    WordStops(t, []);
    var u := t + (" " + arguments);
    assert u == "/start " + arguments;
    WordStops(t, " " + arguments);
  }

  /** Splitting stops at the first whitespace character. */
  lemma {:induction false} WordStops(w: string, rest: string)
    requires forall i :: 0 <= i < |w| ==> !IsSpace(w[i])
    requires rest == [] || IsSpace(rest[0])
    ensures Word(w + rest) == w
    decreases |w|
  {
    if w == [] {
      assert w + rest == rest;
    } else {
      assert (w + rest)[1..] == w[1..] + rest;
      WordStops(w[1..], rest);
    }
  }

  /** A string without '@' is all before-the-'@'. */
  lemma {:induction false} BeforeAtWhole(s: string)
    requires '@' !in s
    ensures BeforeAt(s) == s
    decreases |s|
  {
    if s != [] {
      assert s == [s[0]] + s[1..];
      BeforeAtWhole(s[1..]);
    }
  }

  /** Lower-casing keeps a string whose every character it keeps. */
  lemma LowerKeeps(s: string)
    requires forall i :: 0 <= i < |s| ==> LowerChar(s[i]) == s[i]
    ensures Lower(s) == s
  {
    assert forall i :: 0 <= i < |s| ==> Lower(s)[i] == s[i];
  }
}
