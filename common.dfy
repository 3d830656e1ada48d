/** Shared vocabulary of the EduConnect backend and client model: optional
    values, HTTP error replies, chat messages, and the few JavaScript string
    operations the chat code relies on (trim, substring, endsWith,
    upper-casing the first character). */
module Common {

  datatype Option<+T> = None | Some(value: T)

  /** An HTTP error reply: its status code and the `error`/`msg` text of the
      JSON envelope. */
  datatype HttpError = HttpError(status: nat, error: string)

  datatype Result<+T> = Ok(value: T) | Err(failure: HttpError)

  /** Document ids. MongoDB's ObjectIds are modelled as naturals handed out
      by a counter. */
  type UserId = nat
  type ChatId = nat
  type PostId = nat

  /** One chat turn as the client sends it and the store keeps it. The role
      is free text: only "user" is treated specially anywhere. */
  datatype Message = Message(role: string, content: string, timestamp: string)

  const UserRole: string := "user"
  const AssistantRole: string := "assistant"

  function Min(a: int, b: int): int { if a <= b then a else b }

  /** The characters JavaScript's `String.prototype.trim` removes: the
      WhiteSpace and LineTerminator productions of ECMAScript. */
  predicate IsJsSpace(c: char)
  {
    || c == '\t' || c == '\n' || c == '\U{000B}' || c == '\U{000C}' || c == '\r'
    || c == ' ' || c == '\U{00A0}' || c == '\U{1680}'
    || ('\U{2000}' <= c <= '\U{200A}')
    || c == '\U{2028}' || c == '\U{2029}' || c == '\U{202F}' || c == '\U{205F}'
    || c == '\U{3000}' || c == '\U{FEFF}'
  }

  predicate AllSpace(s: string)
  {
    forall i :: 0 <= i < |s| ==> IsJsSpace(s[i])
  }

  /** How many whitespace characters `s` starts with. */
  function LeadingSpaces(s: string): (n: nat)
    ensures n <= |s|
    ensures forall k :: 0 <= k < n ==> IsJsSpace(s[k])
    ensures n < |s| ==> !IsJsSpace(s[n])
  {
    if s != [] && IsJsSpace(s[0]) then 1 + LeadingSpaces(s[1..]) else 0
  }

  /** Leading whitespace removed: the result is a suffix of `s`, everything
      cut off was whitespace, and the result does not start with whitespace. */
  function TrimStart(s: string): (r: string)
    ensures |r| <= |s| && r == s[|s| - |r|..]
    ensures AllSpace(s[..|s| - |r|])
    ensures r == [] || !IsJsSpace(r[0])
  {
    var n := LeadingSpaces(s);
    assert AllSpace(s[..n]) by {
      forall k | 0 <= k < n ensures IsJsSpace(s[..n][k]) {
        assert s[..n][k] == s[k];
      }
    }
    s[n..]
  }

  /** How many whitespace characters `s` ends with. */
  function TrailingSpaces(s: string): (n: nat)
    ensures n <= |s|
    ensures forall k :: |s| - n <= k < |s| ==> IsJsSpace(s[k])
    ensures n < |s| ==> !IsJsSpace(s[|s| - 1 - n])
  {
    if s != [] && IsJsSpace(s[|s| - 1]) then 1 + TrailingSpaces(s[..|s| - 1]) else 0
  }

  /** Trailing whitespace removed: the result is a prefix of `s`, everything
      cut off was whitespace, and the result does not end with whitespace. */
  function TrimEnd(s: string): (r: string)
    ensures |r| <= |s| && r == s[..|r|]
    ensures AllSpace(s[|r|..])
    ensures r == [] || !IsJsSpace(r[|r| - 1])
  {
    var n := TrailingSpaces(s);
    var cut := s[|s| - n..];
    assert AllSpace(cut) by {
      forall k | 0 <= k < |cut| ensures IsJsSpace(cut[k]) {
        assert cut[k] == s[|s| - n + k];
      }
    }
    s[..|s| - n]
  }

  /** `s.trim()`: a contiguous piece of `s` with no whitespace at either end,
      empty exactly when `s` is all whitespace. */
  function Trim(s: string): (r: string)
    ensures |r| <= |s|
    ensures exists i :: 0 <= i <= |s| - |r| && s[i..][..|r|] == r && AllSpace(s[..i]) && AllSpace(s[i..][|r|..])
    ensures r == [] || (!IsJsSpace(r[0]) && !IsJsSpace(r[|r| - 1]))
    ensures r == [] <==> AllSpace(s)
  {
    TrimPieces(s);
    TrimEnd(TrimStart(s))
  }

  lemma TrimPieces(s: string)
    ensures var t := TrimStart(s); var r := TrimEnd(t);
      && r == s[|s| - |t|..][..|r|]
      && (r == [] <==> AllSpace(s))
      && (r != [] ==> !IsJsSpace(r[0]))
      && AllSpace(s[..|s| - |t|]) && AllSpace(s[|s| - |t|..][|r|..])
  {
    var t := TrimStart(s);
    var r := TrimEnd(t);
    var i := |s| - |t|;
    assert s[i..] == t;
    if r == [] {
      assert AllSpace(t) by { assert t[|r|..] == t; }
      assert t == [];
      assert s[..i] == s;
    } else {
      assert r[0] == t[0];
      assert !AllSpace(s) by { assert s[i] == t[0]; }
    }
  }

  /** `s.substring(0, n)`: the first `n` characters, or all of `s` when it
      is shorter. */
  function Take(s: string, n: nat): (r: string)
    ensures |r| == Min(n, |s|)
    ensures r == s[..|r|]
  {
    if |s| <= n then s else s[..n]
  }

  /** `s.endsWith(suffix)`. */
  function EndsWith(s: string, suffix: string): bool
  {
    |suffix| <= |s| && s[|s| - |suffix|..] == suffix
  }

  /** `s.endsWith(suffix)` holds exactly when `suffix` is what is left of
      `s` after dropping some prefix. */
  lemma EndsWithMeansSuffix(s: string, suffix: string)
    ensures EndsWith(s, suffix) <==> exists i :: 0 <= i <= |s| && s[i..] == suffix
  {
    if exists i :: 0 <= i <= |s| && s[i..] == suffix {
      var i :| 0 <= i <= |s| && s[i..] == suffix;
      assert i == |s| - |suffix|;
    }
  }

  /** `c.toUpperCase()` for the ASCII letters; every other character is
      left as it is. */
  function UpperChar(c: char): (r: char)
    ensures 'a' <= c <= 'z' ==> 'A' <= r <= 'Z' && r as int - 'A' as int == c as int - 'a' as int
    ensures !('a' <= c <= 'z') ==> r == c
  {
    if 'a' <= c <= 'z' then (c as int - 'a' as int + 'A' as int) as char else c
  }

  /** `s.charAt(0).toUpperCase() + s.slice(1)`. */
  function UpperFirst(s: string): (r: string)
    ensures |r| == |s|
    ensures r != [] ==> r[0] == UpperChar(s[0]) && r[1..] == s[1..]
  {
    if s == [] then [] else [UpperChar(s[0])] + s[1..]
  }
}
