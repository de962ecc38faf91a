/**
 * Shared vocabulary of the model: optional values, the exceptions the
 * Python code raises or catches, chat messages, and the JSON-like values
 * that the configuration and demo files hold.
 */
module Base {
  datatype Option<T> = None | Some(value: T)

  /** A value, or the exception computing it raised. */
  datatype Result<T> = Ok(value: T) | Err(exc: Exc)

  /**
   * A call whose keyword arguments do not match its callee, or an import
   * of a name its module does not define, read as the code writes it (the
   * call raises TypeError, the import ImportError) or as evidently intended.
   */
  datatype Binding = AsWritten | Intended

  /** Built-in Python exception classes the modelled code raises or catches. */
  datatype PyErrorKind =
    | AttributeError | IndexError | TypeError | ValueError | KeyError
    | NameError | UnboundLocalError | EOFError | OSError | RuntimeError | ImportError

  /** Classes of the OpenAI SDK exception hierarchy (openai._exceptions). */
  datatype SdkClass =
    | RateLimitError | BadRequestError | AuthenticationError | PermissionDeniedError
    | NotFoundError | ConflictError | UnprocessableEntityError | InternalServerError
    | APIStatusError | APIConnectionError | APITimeoutError
    | APIResponseValidationError | APIError | OpenAIError

  /**
   * A raised exception.  `text` is what `str(e)` gives; `body` is the parsed
   * error body an SDK status error carries.
   */
  datatype Exc =
    | KeyboardInterrupt
    | PyError(kind: PyErrorKind, text: string)
    | SdkError(cls: SdkClass, text: string, body: Option<map<string, string>>)

  /** `str(e)`: the message of the exception (empty for Ctrl-C). */
  function ExcText(e: Exc): string {
    if e.KeyboardInterrupt? then "" else e.text
  }

  /** `except Exception` catches everything but KeyboardInterrupt. */
  predicate IsException(e: Exc) { !e.KeyboardInterrupt? }

  /** `isinstance(e, cls)` over the SDK hierarchy. */
  predicate SdkIsA(c: SdkClass, ancestor: SdkClass) {
    c == ancestor
    || (ancestor == OpenAIError)
    || (ancestor == APIError && c != OpenAIError)
    || (ancestor == APIStatusError &&
        c in {RateLimitError, BadRequestError, AuthenticationError, PermissionDeniedError,
              NotFoundError, ConflictError, UnprocessableEntityError, InternalServerError})
    || (ancestor == APIConnectionError && c == APITimeoutError)
  }

  predicate IsA(e: Exc, ancestor: SdkClass) {
    e.SdkError? && SdkIsA(e.cls, ancestor)
  }

  /** One entry of a chat transcript: `{"role": ..., "content": ...}`. */
  datatype Message = Message(role: string, content: string)

  function UserMessage(text: string): Message { Message("user", text) }
  function AssistantMessage(text: string): Message { Message("assistant", text) }
  function SystemMessage(text: string): Message { Message("system", text) }

  /** `sum(len(msg["content"]) for msg in messages)` */
  function TotalChars(ms: seq<Message>): nat {
    if ms == [] then 0 else TotalChars(ms[..|ms| - 1]) + |ms[|ms| - 1].content|
  }

  lemma {:induction false} TotalCharsAppend(a: seq<Message>, b: seq<Message>)
    ensures TotalChars(a + b) == TotalChars(a) + TotalChars(b)
    decreases |b|
  {
    if b != [] {
      assert (a + b)[..|a + b| - 1] == a + b[..|b| - 1];
      TotalCharsAppend(a, b[..|b| - 1]);
    } else {
      assert a + b == a;
    }
  }

  /** A value as read from JSON or YAML (a Python dict, list, str, ...). */
  datatype JValue =
    | JNull
    | JBool(b: bool)
    | JInt(i: int)
    | JNum(r: real)
    | JStr(s: string)
    | JList(items: seq<JValue>)
    | JObj(fields: map<string, JValue>)

  /** `type(v).__name__`, as error messages show it. */
  function TypeName(v: JValue): string {
    match v
    case JNull => "NoneType"
    case JBool(_) => "bool"
    case JInt(_) => "int"
    case JNum(_) => "float"
    case JStr(_) => "str"
    case JList(_) => "list"
    case JObj(_) => "dict"
  }

  /** The AttributeError of calling a method a value's type does not have. */
  function NoAttribute(v: JValue, name: string): Exc {
    PyError(AttributeError, "'" + TypeName(v) + "' object has no attribute '" + name + "'")
  }

  /** Python truthiness of such a value. */
  predicate Truthy(v: JValue) {
    match v
    case JNull => false
    case JBool(b) => b
    case JInt(i) => i != 0
    case JNum(r) => r != 0.0
    case JStr(s) => s != ""
    case JList(xs) => xs != []
    case JObj(m) => |m| > 0
  }

  /** A file as seen by the code that reads it. */
  datatype FileContent = Parsed(value: JValue) | Unparsable
}

/** Python `str` operations, over `seq<char>`. */
module Text {
  import opened Base

  /** `str.isspace()` for one character: the characters Python's `strip()` removes. */
  predicate IsSpace(c: char) {
    c == ' ' || c == '\t' || c == '\n' || c == '\r' || c == '\U{0B}' || c == '\U{0C}'
    || ('\U{1C}' <= c <= '\U{1F}') || c == '\U{85}' || c == '\U{A0}' || c == '\U{1680}'
    || ('\U{2000}' <= c <= '\U{200A}') || c == '\U{2028}' || c == '\U{2029}'
    || c == '\U{202F}' || c == '\U{205F}' || c == '\U{3000}'
  }

  predicate IsBlank(s: string) { forall i :: 0 <= i < |s| ==> IsSpace(s[i]) }

  function LStrip(s: string): (r: string)
    ensures |r| <= |s|
  {
    if |s| > 0 && IsSpace(s[0]) then LStrip(s[1..]) else s
  }

  /** `lstrip()` removes a blank prefix and keeps the rest, which starts with a non-blank. */
  lemma {:induction false} LStripShape(s: string)
    ensures var r := LStrip(s);
      && r == s[|s| - |r|..]
      && (r == [] || !IsSpace(r[0]))
      && IsBlank(s[..|s| - |r|])
    decreases |s|
  {
    if |s| > 0 && IsSpace(s[0]) {
      LStripShape(s[1..]);
      var r := LStrip(s);
      assert s[1..][..|s| - 1 - |r|] == s[1..|s| - |r|];
    }
  }

  function RStrip(s: string): (r: string)
    ensures |r| <= |s|
  {
    if |s| > 0 && IsSpace(s[|s| - 1]) then RStrip(s[..|s| - 1]) else s
  }

  /** `rstrip()` removes a blank suffix and keeps the rest, which ends with a non-blank. */
  lemma {:induction false} RStripShape(s: string)
    ensures var r := RStrip(s);
      && r == s[..|r|]
      && (r == [] || !IsSpace(r[|r| - 1]))
      && IsBlank(s[|r|..])
    decreases |s|
  {
    if |s| > 0 && IsSpace(s[|s| - 1]) {
      RStripShape(s[..|s| - 1]);
      var r := RStrip(s);
      assert s[..|s| - 1][|r|..] == s[|r|..|s| - 1];
    }
  }

  /** `s.strip()` */
  function Strip(s: string): string { RStrip(LStrip(s)) }

  /** `s.rstrip(c)` for a single character `c`. */
  function RStripChar(s: string, c: char): (r: string)
    ensures |r| <= |s| && r == s[..|r|] && (r == [] || r[|r| - 1] != c)
    ensures forall i :: |r| <= i < |s| ==> s[i] == c
  {
    if |s| > 0 && s[|s| - 1] == c then RStripChar(s[..|s| - 1], c) else s
  }

  /** `str.lower()` on Latin and Cyrillic letters; other characters are kept. */
  function LowerChar(c: char): char {
    if 'A' <= c <= 'Z' then (c as int + 32) as char
    else if '\U{0410}' <= c <= '\U{042F}' then (c as int + 32) as char
    else if '\U{0400}' <= c <= '\U{040F}' then (c as int + 80) as char
    else c
  }

  function Lower(s: string): (r: string)
    ensures |r| == |s| && forall i :: 0 <= i < |s| ==> r[i] == LowerChar(s[i])
  {
    if s == [] then [] else [LowerChar(s[0])] + Lower(s[1..])
  }

  /** `str.upper()` on the same letters. */
  function UpperChar(c: char): char {
    if 'a' <= c <= 'z' then (c as int - 32) as char
    else if '\U{0430}' <= c <= '\U{044F}' then (c as int - 32) as char
    else if '\U{0450}' <= c <= '\U{045F}' then (c as int - 80) as char
    else c
  }

  function Upper(s: string): (r: string)
    ensures |r| == |s| && forall i :: 0 <= i < |s| ==> r[i] == UpperChar(s[i])
  {
    if s == [] then [] else [UpperChar(s[0])] + Upper(s[1..])
  }

  predicate StartsWith(s: string, p: string) { |p| <= |s| && s[..|p|] == p }
  predicate EndsWith(s: string, p: string) { |p| <= |s| && s[|s| - |p|..] == p }

  predicate OccursAt(s: string, p: string, i: int) {
    0 <= i && i + |p| <= |s| && s[i..i + |p|] == p
  }


  /** `s.find(p, from)`, as an option. */
  function IndexFrom(s: string, p: string, from: nat): (r: Option<nat>)
    decreases |s| - from
    ensures r.Some? ==> from <= r.value && OccursAt(s, p, r.value)
    ensures r.Some? ==> forall j :: from <= j < r.value ==> !OccursAt(s, p, j)
    ensures r.None? ==> forall j :: from <= j ==> !OccursAt(s, p, j)
  {
    if from + |p| > |s| then None
    else if s[from..from + |p|] == p then Some(from)
    else IndexFrom(s, p, from + 1)
  }

  /** `p in s` */
  predicate Contains(s: string, p: string) { IndexFrom(s, p, 0).Some? }

  lemma ContainsIff(s: string, p: string)
    ensures Contains(s, p) <==> exists i :: OccursAt(s, p, i)
  {
    if Contains(s, p) { assert OccursAt(s, p, IndexFrom(s, p, 0).value); }
  }

  /** The first occurrence at or after `from` is what `find` reports. */
  lemma IndexFromFirst(s: string, p: string, from: nat, k: nat)
    requires from <= k && OccursAt(s, p, k)
    requires forall j :: from <= j < k ==> !OccursAt(s, p, j)
    ensures IndexFrom(s, p, from) == Some(k)
  {
  }

  /** `s.replace(p, v)`: left to right, non-overlapping. */
  function Replace(s: string, p: string, v: string): string
    requires |p| > 0
    decreases |s|
  {
    if |s| < |p| then s
    else if s[..|p|] == p then v + Replace(s[|p|..], p, v)
    else [s[0]] + Replace(s[1..], p, v)
  }

  /** `sep.join(parts)` */
  function Join(parts: seq<string>, sep: string): string {
    if parts == [] then ""
    else if |parts| == 1 then parts[0]
    else parts[0] + sep + Join(parts[1..], sep)
  }

  /** `"".join(parts)` */
  function Concat(parts: seq<string>): string {
    if parts == [] then "" else parts[0] + Concat(parts[1..])
  }

  lemma ConcatAppend(parts: seq<string>, x: string)
    ensures Concat(parts + [x]) == Concat(parts) + x
  {
    if parts == [] {
      assert [x][1..] == [];
    } else {
      assert (parts + [x])[1..] == parts[1..] + [x];
      ConcatAppend(parts[1..], x);
    }
  }

  predicate IsDigitChar(c: char) { '0' <= c <= '9' }

  /** `s.isdigit()` (decimal digits only) */
  predicate IsDigits(s: string) {
    |s| > 0 && forall i :: 0 <= i < |s| ==> IsDigitChar(s[i])
  }

  /** Value of a run of decimal digits. */
  function DigitsValue(s: string): nat
    requires forall i :: 0 <= i < |s| ==> IsDigitChar(s[i])
  {
    if s == [] then 0
    else
      assert IsDigitChar(s[|s| - 1]);
      DigitsValue(s[..|s| - 1]) * 10 + (s[|s| - 1] as int - '0' as int)
  }

  /** The characters of `s` other than `_`. */
  function DropUnderscores(s: string): (r: string)
    ensures |r| <= |s|
  {
    if s == [] then []
    else if s[0] == '_' then DropUnderscores(s[1..])
    else [s[0]] + DropUnderscores(s[1..])
  }

  /**
   * The digit part Python's `int()` accepts: digits, with single underscores
   * allowed only between two digits.
   */
  predicate DigitGroups(s: string) {
    |s| > 0 && IsDigitChar(s[0]) && IsDigitChar(s[|s| - 1])
    && (forall i :: 0 <= i < |s| ==> IsDigitChar(s[i]) || s[i] == '_')
    && (forall i :: 0 <= i < |s| - 1 ==> !(s[i] == '_' && s[i + 1] == '_'))
  }

  lemma {:induction false} DropUnderscoresDigits(s: string)
    requires forall i :: 0 <= i < |s| ==> IsDigitChar(s[i]) || s[i] == '_'
    ensures forall i :: 0 <= i < |DropUnderscores(s)| ==> IsDigitChar(DropUnderscores(s)[i])
  {
    if s != [] {
      DropUnderscoresDigits(s[1..]);
    }
  }

  lemma DropUnderscoresOfDigits(s: string)
    requires forall i :: 0 <= i < |s| ==> IsDigitChar(s[i])
    ensures DropUnderscores(s) == s
  {
  }

  /** `int(s)` in base 10; `None` where Python raises ValueError. */
  function ParseInt(s: string): (r: Option<int>)
  {
    ParseStripped(Strip(s))
  }

  /** `int()` of a string without surrounding whitespace: an optional sign, then digit groups. */
  function ParseStripped(t: string): (r: Option<int>)
  {
    if |t| > 0 && (t[0] == '+' || t[0] == '-') then
      (if DigitGroups(t[1..]) then
        DropUnderscoresDigits(t[1..]);
        var n: int := DigitsValue(DropUnderscores(t[1..]));
        var v: int := if t[0] == '-' then -n else n;
        Some(v)
      else None)
    else if DigitGroups(t) then
      DropUnderscoresDigits(t);
      Some(DigitsValue(DropUnderscores(t)))
    else None
  }

  /** Decimal digits of a natural number, as `str(n)` writes them. */
  function NatToString(n: nat): (r: string)
    ensures |r| > 0 && forall i :: 0 <= i < |r| ==> IsDigitChar(r[i])
    decreases n
  {
    if n < 10 then [('0' as int + n) as char]
    else NatToString(n / 10) + [('0' as int + n % 10) as char]
  }

  lemma {:induction false} NatToStringValue(n: nat)
    ensures DigitsValue(NatToString(n)) == n
    decreases n
  {
    if n >= 10 {
      var r := NatToString(n);
      assert r[..|r| - 1] == NatToString(n / 10);
      NatToStringValue(n / 10);
    }
  }

  /** `str(i)` for an integer. */
  function IntToString(i: int): string {
    if i < 0 then "-" + NatToString(-i) else NatToString(i)
  }

  function Zeros(k: nat): (r: string)
    ensures |r| == k && forall i :: 0 <= i < k ==> r[i] == '0'
  {
    if k == 0 then [] else "0" + Zeros(k - 1)
  }

  /** Left-pad a digit string with zeros to at least `width` characters. */
  function ZeroPad(digits: string, width: nat): (r: string)
    ensures |r| >= width && |r| >= |digits| && EndsWith(r, digits)
  {
    if |digits| >= width then digits else Zeros(width - |digits|) + digits
  }

  /** `f"{n:03d}"`: zero-padded to width 3, the sign counting toward the width. */
  function Format03d(n: int): string {
    if n >= 0 then ZeroPad(NatToString(n), 3) else "-" + ZeroPad(NatToString(-n), 2)
  }

  lemma {:induction false} DigitsValueLeadingZeros(k: nat, d: string)
    requires forall i :: 0 <= i < |d| ==> IsDigitChar(d[i])
    ensures forall i :: 0 <= i < |Zeros(k) + d| ==> IsDigitChar((Zeros(k) + d)[i])
    ensures DigitsValue(Zeros(k) + d) == DigitsValue(d)
    decreases |d|, k
  {
    var z := Zeros(k) + d;
    if d == [] {
      assert z == Zeros(k);
      if k > 0 {
        assert z[..|z| - 1] == Zeros(k - 1) + d;
        DigitsValueLeadingZeros(k - 1, d);
      }
    } else {
      assert z[..|z| - 1] == Zeros(k) + d[..|d| - 1];
      DigitsValueLeadingZeros(k, d[..|d| - 1]);
    }
  }

  /** Zero-padding a number's digits keeps its value. */
  lemma ZeroPadValue(n: nat, width: nat)
    ensures IsDigits(ZeroPad(NatToString(n), width))
    ensures DigitsValue(ZeroPad(NatToString(n), width)) == n
  {
    var d := NatToString(n);
    NatToStringValue(n);
    if |d| < width {
      DigitsValueLeadingZeros(width - |d|, d);
    }
  }

  /** Parsing a formatted non-negative number gives it back. */
  lemma Format03dParses(n: nat)
    ensures IsDigits(Format03d(n)) && DigitsValue(Format03d(n)) == n
  {
    ZeroPadValue(n, 3);
  }

  lemma StripUnchanged(s: string)
    requires |s| > 0 && !IsSpace(s[0]) && !IsSpace(s[|s| - 1])
    ensures Strip(s) == s
  {
  }

  lemma StripIdempotent(s: string)
    ensures Strip(Strip(s)) == Strip(s)
    ensures Strip(s) == [] || (!IsSpace(Strip(s)[0]) && !IsSpace(Strip(s)[|Strip(s)| - 1]))
  {
    var l := LStrip(s);
    var r := RStrip(l);
    LStripShape(s);
    RStripShape(l);
    if r != [] {
      assert r[0] == l[0];
      StripUnchanged(r);
    }
  }

  /** No white space at either end: `Strip` leaves it as it is. */
  predicate IsStripped(b: string) {
    Strip(b) == b && (b == [] || (!IsSpace(b[0]) && !IsSpace(b[|b| - 1])))
  }

  /** Leading white space of `u + t` all comes from `u` when `t` starts with a non-space. */
  lemma {:induction false} LStripConcat(u: string, t: string)
    requires t != [] && !IsSpace(t[0])
    ensures LStrip(u + t) == LStrip(u) + t
    decreases |u|
  {
    if u == [] {
      assert u + t == t;
    } else if IsSpace(u[0]) {
      assert (u + t)[1..] == u[1..] + t;
      LStripConcat(u[1..], t);
    }
  }

  /** Trailing white space of `t + v` all comes from `v` when `t` ends with a non-space. */
  lemma {:induction false} RStripConcat(t: string, v: string)
    requires t != [] && !IsSpace(t[|t| - 1])
    ensures RStrip(t + v) == t + RStrip(v)
    decreases |v|
  {
    if v == [] {
      assert t + v == t;
    } else if IsSpace(v[|v| - 1]) {
      assert (t + v)[..|t + v| - 1] == t + v[..|v| - 1];
      RStripConcat(t, v[..|v| - 1]);
    }
  }

  /** Stripping around a word that starts and ends with non-space keeps the word whole. */
  lemma StripAround(u: string, w: string, v: string)
    requires w != [] && !IsSpace(w[0]) && !IsSpace(w[|w| - 1])
    ensures Strip(u + w + v) == LStrip(u) + w + RStrip(v)
  {
    assert u + w + v == u + (w + v);
    LStripConcat(u, w + v);
    assert LStrip(u) + (w + v) == (LStrip(u) + w) + v;
    RStripConcat(LStrip(u) + w, v);
  }

  /** `s.split(sep)`: the pieces between the separators; at least one. */
  function Split(s: string, sep: char): (r: seq<string>)
    ensures |r| >= 1
    decreases |s|
  {
    match IndexFrom(s, [sep], 0)
    case None => [s]
    case Some(k) => [s[..k]] + Split(s[k + 1..], sep)
  }

  /** An occurrence of `w` in `a + b` lies in `a`, in `b`, or across the seam. */
  lemma ContainsConcat(a: string, b: string, w: string)
    requires |w| > 0
    requires forall i :: 0 <= i < |a| && |a| < i + |w| ==> !OccursAt(a + b, w, i)
    ensures Contains(a + b, w) <==> Contains(a, w) || Contains(b, w)
  {
    ContainsIff(a + b, w);
    ContainsIff(a, w);
    ContainsIff(b, w);
    if Contains(a, w) {
      var i :| OccursAt(a, w, i);
      OccursLeft(a, b, w, i);
    }
    if Contains(b, w) {
      var i :| OccursAt(b, w, i);
      OccursRight(a, b, w, i);
    }
    if Contains(a + b, w) {
      var i :| OccursAt(a + b, w, i);
      OccursBack(a, b, w, i);
    }
  }

  /** An occurrence in `a` is one in `a + b`, at the same place. */
  lemma OccursLeft(a: string, b: string, w: string, i: int)
    requires OccursAt(a, w, i)
    ensures OccursAt(a + b, w, i)
  {
    assert (a + b)[i..i + |w|] == a[i..i + |w|];
  }

  /** An occurrence in `b` is one in `a + b`, shifted by `|a|`. */
  lemma OccursRight(a: string, b: string, w: string, i: int)
    requires OccursAt(b, w, i)
    ensures OccursAt(a + b, w, |a| + i)
  {
    assert (a + b)[|a| + i..|a| + i + |w|] == b[i..i + |w|];
  }

  /** An occurrence in `a + b` that does not cross the seam is one in `a` or in `b`. */
  lemma OccursBack(a: string, b: string, w: string, i: int)
    requires OccursAt(a + b, w, i)
    ensures i + |w| <= |a| ==> OccursAt(a, w, i)
    ensures i >= |a| ==> OccursAt(b, w, i - |a|)
  {
    if i + |w| <= |a| {
      assert a[i..i + |w|] == (a + b)[i..i + |w|];
    }
    if i >= |a| {
      assert b[i - |a|..i - |a| + |w|] == (a + b)[i..i + |w|];
    }
  }

  /**
   * A word without the separator occurs in a string exactly when it occurs
   * in one of the string's pieces.
   */
  lemma {:induction false} SplitContains(s: string, sep: char, w: string)
    requires |w| > 0 && sep !in w
    ensures Contains(s, w) <==> exists piece :: piece in Split(s, sep) && Contains(piece, w)
    decreases |s|
  {
    match IndexFrom(s, [sep], 0)
    case None =>
      assert Split(s, sep) == [s];
    case Some(k) =>
      var head, tail := s[..k], s[k + 1..];
      assert s == head + ([sep] + tail);
      ContainsAroundSep(head, tail, sep, w);
      SplitContains(tail, sep, w);
      assert Split(s, sep) == [head] + Split(tail, sep);
  }

  /** A word without the separator occurs around one exactly when it occurs on one side. */
  lemma ContainsAroundSep(head: string, tail: string, sep: char, w: string)
    requires |w| > 0 && sep !in w
    ensures Contains(head + ([sep] + tail), w) <==> Contains(head, w) || Contains(tail, w)
  {
    var s := head + ([sep] + tail);
    forall i | 0 <= i < |head| && |head| < i + |w| ensures !OccursAt(s, w, i) {
      assert s[|head|] == sep;
    }
    ContainsConcat(head, [sep] + tail, w);
    forall i | 0 <= i < 1 && 1 < i + |w| ensures !OccursAt([sep] + tail, w, i) {
      assert ([sep] + tail)[0] == sep;
    }
    ContainsConcat([sep], tail, w);
    ContainsIff([sep], w);
  }

  lemma DigitsAreGroups(d: string)
    requires IsDigits(d)
    ensures DigitGroups(d) && DropUnderscores(d) == d
  {
    DropUnderscoresOfDigits(d);
  }

  /** `int()` of a digit string is its value. */
  lemma ParseDigits(d: string)
    requires IsDigits(d)
    ensures ParseInt(d) == Some(DigitsValue(d))
  {
    assert IsDigitChar(d[0]) && IsDigitChar(d[|d| - 1]);
    StripUnchanged(d);
    DigitsAreGroups(d);
  }

  lemma ParseStrippedNeg(d: string)
    requires IsDigits(d)
    ensures ParseStripped("-" + d) == Some(-(DigitsValue(d) as int))
  {
    var t := "-" + d;
    assert t[1..] == d;
    DigitsAreGroups(d);
  }

  lemma ParseUnstripped(s: string)
    requires Strip(s) == s
    ensures ParseInt(s) == ParseStripped(s)
  {
  }

  lemma StripSigned(d: string)
    requires IsDigits(d)
    ensures Strip("-" + d) == "-" + d
  {
    var s := "-" + d;
    assert s[|s| - 1] == d[|d| - 1];
    StripUnchanged(s);
  }

  /** `int()` of a minus sign followed by a digit string is the negated value. */
  lemma ParseNegDigits(d: string)
    requires IsDigits(d)
    ensures ParseInt("-" + d) == Some(-(DigitsValue(d) as int))
  {
    ParseStrippedNeg(d);
    StripSigned(d);
    ParseUnstripped("-" + d);
  }

  /** `int()` reads back what `{n:03d}` writes, negative numbers included. */
  /** The digits after the sign of a negative `f"{n:03d}"`. */
  lemma NegFormat03d(n: int) returns (d: string)
    requires n < 0
    ensures IsDigits(d) && DigitsValue(d) == -n && Format03d(n) == "-" + d
  {
    var m: nat := -n;
    d := ZeroPad(NatToString(m), 2);
    ZeroPadValue(m, 2);
  }

  /** `int(f"{n:03d}") == n`: the file-number format reads back as written. */
  lemma ParseFormat03d(n: int)
    ensures ParseInt(Format03d(n)) == Some(n)
  {
    if n >= 0 {
      var f := ZeroPad(NatToString(n), 3);
      ZeroPadValue(n, 3);
      ParseDigits(f);
    } else {
      var d := NegFormat03d(n);
      ParseNegDigits(d);
    }
  }

  /** `int(str(i)) == i` */
  lemma ParseIntToString(i: int)
    ensures ParseInt(IntToString(i)) == Some(i)
  {
    var n: nat := if i < 0 then -i else i;
    NatToStringValue(n);
    if i < 0 { ParseNegDigits(NatToString(n)); } else { ParseDigits(NatToString(n)); }
  }

  /** `str(i)` has no letters and no surrounding white space. */
  lemma IntToStringPlain(i: int)
    ensures Lower(IntToString(i)) == IntToString(i)
    ensures Strip(IntToString(i)) == IntToString(i)
    ensures |IntToString(i)| > 0 && forall k :: 0 <= k < |IntToString(i)| ==> IsDigitChar(IntToString(i)[k]) || IntToString(i)[k] == '-'
  {
    var s := IntToString(i);
    var d := NatToString(if i < 0 then -i else i);
    assert s[|s| - 1] == d[|d| - 1];
    StripUnchanged(s);
    assert forall k :: 0 <= k < |s| ==> IsDigitChar(s[k]) || s[k] == '-';
    LowerDigits(s);
  }

  /** Digits and minus signs have no letter case. */
  lemma LowerDigits(s: string)
    requires forall k :: 0 <= k < |s| ==> IsDigitChar(s[k]) || s[k] == '-'
    ensures Lower(s) == s
  {
    var l := Lower(s);
    forall k | 0 <= k < |s| ensures l[k] == s[k] {
      assert l[k] == LowerChar(s[k]);
    }
  }

  /** `w in words`, one word at a time. */
  predicate InWords(w: string, words: seq<string>)
    decreases |words|
  {
    words != [] && (w == words[0] || InWords(w, words[1..]))
  }

  lemma {:induction false} InWordsIff(w: string, words: seq<string>)
    ensures InWords(w, words) <==> w in words
    decreases |words|
  {
    if words != [] {
      InWordsIff(w, words[1..]);
      assert words == [words[0]] + words[1..];
    }
  }

  /** A prefix holding no first character of the pattern is copied unchanged. */
  lemma {:induction false} ReplaceSkip(a: string, p: string, v: string, t: string)
    requires |p| > 0 && forall i :: 0 <= i < |a| ==> a[i] != p[0]
    ensures Replace(a + t, p, v) == a + Replace(t, p, v)
    decreases |a|
  {
    if a == [] {
      assert a + t == t;
    } else if |a + t| >= |p| {
      assert (a + t)[..|p|][0] == a[0];
      assert (a + t)[1..] == a[1..] + t;
      ReplaceSkip(a[1..], p, v, t);
    }
  }

  /** Replacing something absent changes nothing. */
  lemma {:induction false} ReplaceAbsent(s: string, p: string, v: string)
    requires |p| > 0 && !Contains(s, p)
    ensures Replace(s, p, v) == s
    decreases |s|
  {
    ContainsIff(s, p);
    if |s| >= |p| {
      assert !OccursAt(s, p, 0);
      ContainsIff(s[1..], p);
      forall j | OccursAt(s[1..], p, j) ensures OccursAt(s, p, j + 1) {
        assert s[j + 1..j + 1 + |p|] == s[1..][j..j + |p|];
      }
      ReplaceAbsent(s[1..], p, v);
    }
  }
}
