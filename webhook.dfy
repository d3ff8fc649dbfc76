/**
 * WebhookUtil: a violation alert for a Discord webhook. The alert exists
 * only when webhooks are enabled and a URL is configured; its body is a
 * fixed JSON object whose content field is the escaped alert line.
 * Escaping replaces backslashes, then double quotes, then newlines.
 */
module Webhook {
  import opened Util
  import opened Strings

  /** The escape of one character: backslash, quote and newline get a backslash form. */
  function EscapeChar(c: char): string
  {
    if c == '\\' then "\\\\"
    else if c == '"' then "\\\""
    else if c == '\n' then "\\n"
    else [c]
  }

  /** A one-pass, character-by-character escape. */
  function Escape(s: string): string
    decreases |s|
  {
    if s == [] then [] else EscapeChar(s[0]) + Escape(s[1..])
  }

  /**
   * escapeJson as written: three successive String.replace calls. Because
   * backslashes are replaced first, the later passes never touch a backslash
   * an earlier one introduced, so the result is the one-pass escape.
   */
  function EscapeJson(s: string): (r: string)
    ensures r == Escape(s)
  {
    ReplaceChainIsOnePass(s);
    Replace(Replace(Replace(s, "\\", "\\\\"), "\"", "\\\""), "\n", "\\n")
  }

  /** The three replacements act on a single character as EscapeChar does. */
  lemma EscapeJsonChar(c: char)
    ensures Replace(Replace(Replace([c], "\\", "\\\\"), "\"", "\\\""), "\n", "\\n") == EscapeChar(c)
  {
    if c == '\\' {
      assert Replace([c], "\\", "\\\\") == "\\\\";
      assert Replace("\\\\", "\"", "\\\"") == "\\\\";
      assert Replace("\\\\", "\n", "\\n") == "\\\\";
    } else if c == '"' {
      assert Replace([c], "\\", "\\\\") == "\"";
      assert Replace("\"", "\"", "\\\"") == "\\\"";
      assert Replace("\\\"", "\n", "\\n") == "\\\"";
    } else if c == '\n' {
      assert Replace([c], "\\", "\\\\") == "\n";
      assert Replace("\n", "\"", "\\\"") == "\n";
      assert Replace("\n", "\n", "\\n") == "\\n";
    } else {
      assert Replace([c], "\\", "\\\\") == [c];
      assert Replace([c], "\"", "\\\"") == [c];
      assert Replace([c], "\n", "\\n") == [c];
    }
  }

  /** The replace chain of escapeJson is, character by character, the one-pass escape. */
  lemma {:induction false} ReplaceChainIsOnePass(s: string)
    ensures Replace(Replace(Replace(s, "\\", "\\\\"), "\"", "\\\""), "\n", "\\n") == Escape(s)
    decreases |s|
  {
    if s != [] {
      var c, rest := s[0], s[1..];
      assert s == [c] + rest;
      ReplaceCharAppend([c], rest, '\\', "\\\\");
      var a1, b1 := Replace([c], "\\", "\\\\"), Replace(rest, "\\", "\\\\");
      ReplaceCharAppend(a1, b1, '"', "\\\"");
      var a2, b2 := Replace(a1, "\"", "\\\""), Replace(b1, "\"", "\\\"");
      ReplaceCharAppend(a2, b2, '\n', "\\n");
      EscapeJsonChar(c);
      ReplaceChainIsOnePass(rest);
    }
  }

  /** The number of backslashes, quotes and newlines in s. */
  function Specials(s: string): nat
    decreases |s|
  {
    if s == [] then 0 else (if s[0] in "\\\"\n" then 1 else 0) + Specials(s[1..])
  }

  /** Escaping adds exactly one character per backslash, quote and newline. */
  lemma {:induction false} EscapeLength(s: string)
    ensures |EscapeJson(s)| == |s| + Specials(s)
    decreases |s|
  {
    if s != [] {
      EscapeLength(s[1..]);
    }
  }

  /** Text without those three characters is returned unchanged. */
  lemma {:induction false} EscapePlainText(s: string)
    requires forall k :: 0 <= k < |s| ==> s[k] !in "\\\"\n"
    ensures EscapeJson(s) == s
    decreases |s|
  {
    if s != [] {
      EscapePlainText(s[1..]);
    }
  }

  /**
   * The escaped text holds no raw newline, and every quote in it directly
   * follows a backslash. (That alone does not make it a valid JSON string:
   * see JsonStringBody and EscapeValidExactly below.)
   */
  lemma {:induction false} EscapeIsSafe(s: string)
    ensures forall i :: 0 <= i < |Escape(s)| ==> Escape(s)[i] != '\n'
    ensures forall i :: 0 <= i < |Escape(s)| && Escape(s)[i] == '"' ==> i > 0 && Escape(s)[i - 1] == '\\'
    decreases |s|
  {
    if s != [] {
      EscapeIsSafe(s[1..]);
      var e, r := EscapeChar(s[0]), Escape(s[1..]);
      assert Escape(s) == e + r;
      forall i | 0 <= i < |e + r|
        ensures (e + r)[i] != '\n'
        ensures (e + r)[i] == '"' ==> i > 0 && (e + r)[i - 1] == '\\'
      {
        if i >= |e| {
          assert (e + r)[i] == r[i - |e|];
          if r[i - |e|] == '"' {
            assert i - |e| > 0;
            assert (e + r)[i - 1] == r[i - |e| - 1];
          }
        }
      }
    }
  }

  /** A hexadecimal digit, in either case. */
  predicate IsHex(c: char)
  {
    '0' <= c <= '9' || 'a' <= c <= 'f' || 'A' <= c <= 'F'
  }

  function HexValue(c: char): (n: nat)
    requires IsHex(c)
    ensures n < 16
  {
    if '0' <= c <= '9' then c as int - '0' as int
    else if 'a' <= c <= 'f' then c as int - 'a' as int + 10
    else c as int - 'A' as int + 10
  }

  /** The lower-case hexadecimal digit of n. */
  function HexDigit(n: nat): (c: char)
    requires n < 16
    ensures IsHex(c) && HexValue(c) == n
  {
    if n < 10 then ('0' as int + n) as char else ('a' as int + n - 10) as char
  }

  /**
   * The character a `\uXXXX` escape names. A lone UTF-16 surrogate half
   * names no character and decodes to U+FFFD; surrogate pairs are not
   * combined.
   */
  function CodeUnit(a: char, b: char, c: char, d: char): char
    requires IsHex(a) && IsHex(b) && IsHex(c) && IsHex(d)
  {
    var v := HexValue(a) * 4096 + HexValue(b) * 256 + HexValue(c) * 16 + HexValue(d);
    if v < 0xD800 || 0xE000 <= v then v as char else '\U{FFFD}'
  }

  /** The character a two-character escape `\x` stands for. */
  function EscapedChar(c: char): char
  {
    if c == 'b' then '\U{8}'
    else if c == 'f' then '\U{C}'
    else if c == 'n' then '\n'
    else if c == 'r' then '\r'
    else if c == 't' then '\t'
    else c
  }

  /** A `\uXXXX` escape at the front of s. */
  predicate UnicodeEscapeAtFront(s: string)
  {
    |s| >= 6 && s[0] == '\\' && s[1] == 'u' && IsHex(s[2]) && IsHex(s[3]) && IsHex(s[4]) && IsHex(s[5])
  }

  /**
   * A JSON string decoder: it reads every escape section 7 of RFC 8259
   * defines, and is lenient, passing unescaped characters through, the
   * control characters that JSON forbids there included.
   */
  function Unescape(s: string): string
    decreases |s|
  {
    if s == [] then []
    else if UnicodeEscapeAtFront(s) then [CodeUnit(s[2], s[3], s[4], s[5])] + Unescape(s[6..])
    else if s[0] == '\\' && |s| >= 2 then [EscapedChar(s[1])] + Unescape(s[2..])
    else [s[0]] + Unescape(s[1..])
  }

  /** A character JSON lets stand for itself inside a string. */
  predicate Unescaped(c: char)
  {
    c >= ' ' && c != '"' && c != '\\'
  }

  /**
   * The text between the quotes of a JSON string, as section 7 of RFC 8259
   * defines it: unescaped characters, the escapes `\"`, `\\`, `\/`, `\b`,
   * `\f`, `\n`, `\r`, `\t`, and `\u` with four hexadecimal digits.
   */
  predicate JsonStringBody(s: string)
    decreases |s|
  {
    if s == [] then true
    else if s[0] == '\\' then
      (|s| >= 2 && s[1] in "\"\\/bfnrt" && JsonStringBody(s[2..]))
      || (UnicodeEscapeAtFront(s) && JsonStringBody(s[6..]))
    else Unescaped(s[0]) && JsonStringBody(s[1..])
  }

  /** No control character other than a newline: the text escapeJson makes valid. */
  predicate OnlyNewlineControls(s: string)
  {
    forall i :: 0 <= i < |s| ==> s[i] >= ' ' || s[i] == '\n'
  }

  /**
   * escapeJson gives a valid JSON string exactly when the text holds no
   * control character other than a newline: a tab or a carriage return,
   * say, is left raw, which JSON does not allow.
   */
  lemma {:induction false} EscapeValidExactly(s: string)
    ensures JsonStringBody(EscapeJson(s)) <==> OnlyNewlineControls(s)
    decreases |s|
  {
    if s != [] {
      var c, rest := s[0], s[1..];
      var e, r := EscapeChar(c), Escape(rest);
      assert Escape(s) == e + r;
      EscapeValidExactly(rest);
      if |e| == 2 {
        assert (e + r)[2..] == r;
        assert !UnicodeEscapeAtFront(e + r);
      } else {
        assert (e + r)[1..] == r;
      }
      assert OnlyNewlineControls(s) <==> (c >= ' ' || c == '\n') && OnlyNewlineControls(rest) by {
        if OnlyNewlineControls(s) {
          forall i | 0 <= i < |rest| ensures rest[i] >= ' ' || rest[i] == '\n' {
            assert rest[i] == s[i + 1];
          }
        }
        if (c >= ' ' || c == '\n') && OnlyNewlineControls(rest) {
          forall i | 0 <= i < |s| ensures s[i] >= ' ' || s[i] == '\n' {
            if i > 0 {
              assert s[i] == rest[i - 1];
            }
          }
        }
      }
    }
  }

  /** As written, a tab passes through escapeJson raw: the JSON string it lands in is invalid. */
  lemma EscapeJsonLeavesTab()
    ensures EscapeJson("\t") == "\t"
    ensures !JsonStringBody(EscapeJson("\t"))
  {
    EscapeValidExactly("\t");
    assert !OnlyNewlineControls("\t") by {
      assert "\t"[0] == '\t';
    }
  }

  /** The escape intended by "safe for inclusion in JSON": every other control character as `\u00XX`. */
  function EscapeCharStrict(c: char): string
  {
    if c == '\\' || c == '"' || c == '\n' then EscapeChar(c)
    else if c < ' ' then "\\u00" + [HexDigit(c as int / 16), HexDigit(c as int % 16)]
    else [c]
  }

  /** Putting one strict escape in front keeps the text valid and decodes to its character. */
  lemma EscapeCharStrictStep(c: char, r: string)
    requires JsonStringBody(r)
    ensures JsonStringBody(EscapeCharStrict(c) + r)
    ensures Unescape(EscapeCharStrict(c) + r) == [c] + Unescape(r)
  {
    var e := EscapeCharStrict(c);
    if c == '\\' || c == '"' || c == '\n' {
      assert (e + r)[2..] == r;
      assert !UnicodeEscapeAtFront(e + r);
    } else if c < ' ' {
      var hi, lo := HexDigit(c as int / 16), HexDigit(c as int % 16);
      assert (e + r)[6..] == r;
      assert UnicodeEscapeAtFront(e + r) by {
        assert (e + r)[1] == 'u' && (e + r)[2] == '0' && (e + r)[3] == '0';
        assert (e + r)[4] == hi && (e + r)[5] == lo;
      }
      assert CodeUnit('0', '0', hi, lo) == c;
    } else {
      assert (e + r)[1..] == r;
    }
  }

  /**
   * The corrected escape: always a valid JSON string, decoded back to the
   * text, and equal to escapeJson's output whenever that is valid.
   */
  function EscapeStrict(s: string): (r: string)
    ensures JsonStringBody(r)
    ensures Unescape(r) == s
    ensures OnlyNewlineControls(s) ==> r == Escape(s)
    decreases |s|
  {
    if s == [] then []
    else
      var rest := EscapeStrict(s[1..]);
      EscapeCharStrictStep(s[0], rest);
      assert OnlyNewlineControls(s) ==> OnlyNewlineControls(s[1..]) && (s[0] >= ' ' || s[0] == '\n') by {
        if OnlyNewlineControls(s) {
          assert s[0] >= ' ' || s[0] == '\n';
          forall i | 0 <= i < |s[1..]| ensures s[1..][i] >= ' ' || s[1..][i] == '\n' {
            assert s[1..][i] == s[i + 1];
          }
        }
      }
      EscapeCharStrict(s[0]) + rest
  }

  /** Decoding the escaped text gives the text back. */
  lemma {:induction false} UnescapeEscape(s: string)
    ensures Unescape(Escape(s)) == s
    decreases |s|
  {
    if s != [] {
      var e, r := EscapeChar(s[0]), Escape(s[1..]);
      assert Escape(s) == e + r;
      UnescapeEscape(s[1..]);
      if |e| == 2 {
        assert (e + r)[2..] == r;
        assert !UnicodeEscapeAtFront(e + r);
      } else {
        assert (e + r)[1..] == r;
      }
    }
  }

  /** The alert line. */
  function AlertMessage(playerName: string, checkName: string, details: string, vl: int): (m: string)
    ensures |m| > |playerName + " failed " + checkName + " " + details + " (VL: "|
  {
    playerName + " failed " + checkName + " " + details + " (VL: " + IntToString(vl) + ")"
  }

  const PayloadPrefix: string := "{\"content\":\""
  const PayloadSuffix: string := "\",\"username\":\"RedoxGuard\",\"avatar_url\":\"https://i.imgur.com/4M34hi2.png\"}"

  /** The content field of a payload, decoded by Unescape. */
  function Content(payload: string): string
    requires |payload| >= |PayloadPrefix| + |PayloadSuffix|
  {
    Unescape(payload[|PayloadPrefix|..|payload| - |PayloadSuffix|])
  }

  /**
   * The JSON body: under Unescape its content field is the message, whatever
   * characters it holds. It is valid JSON only as EscapeValidExactly says.
   */
  function Payload(message: string): (r: string)
    ensures |r| >= |PayloadPrefix| + |PayloadSuffix|
    ensures Content(r) == message
  {
    var e := EscapeJson(message);
    var r := PayloadPrefix + e + PayloadSuffix;
    assert r[|PayloadPrefix|..|r| - |PayloadSuffix|] == e;
    UnescapeEscape(message);
    r
  }

  /** An alert ready to post: where to and what. */
  datatype Alert = Alert(url: string, payload: string)

  /**
   * sendWebhookAlert up to the HTTP request: nothing when webhooks are
   * disabled or the URL is empty.
   */
  function BuildAlert(webhookEnabled: bool, webhookUrl: string, playerName: string, checkName: string,
                      details: string, vl: int): (r: Option<Alert>)
    ensures r.None? <==> !webhookEnabled || webhookUrl == ""
    ensures r.Some? ==> r.value.url == webhookUrl && |r.value.payload| >= |PayloadPrefix| + |PayloadSuffix|
    ensures r.Some? ==> Content(r.value.payload) == AlertMessage(playerName, checkName, details, vl)
  {
    if !webhookEnabled || webhookUrl == "" then None
    else
      var message := AlertMessage(playerName, checkName, details, vl);
      Some(Alert(webhookUrl, Payload(message)))
  }
}
