/**
 * The `inquirer` configuration menu of the older `aiebash` package: the
 * prompt wrapper that hides inquirer's cancellation notice, and the menu
 * actions on the shared `config` object (current LLM, LLM entries,
 * temperature, user content, system settings).
 */
module AiebashMenu {
  import opened Base
  import opened Text
  import ConfigMenu
  import ProviderManagement

  // ---- what is printed ------------------------------------------------------

  datatype Phrase =
    | NoLlms | CurrentSet | AlreadyCurrent | SelectionCancelled
    | TemperatureCancelled | NotANumber | OutOfRange
    | ContentEmpty | ContentUpdated | ContentInterrupted | InputError | ContentCancelled
    | ModelUpdated | UrlUpdated | KeyUpdated | CannotDeleteCurrent | Deleted
    | Added | AddError | FieldsRequired
    | LogLevelUpdated | StreamUpdated | JsonUpdated

  function PhraseText(p: Phrase): string {
    match p
    case NoLlms => "Нет доступных нейросетей. Сначала добавьте хотя бы одну."
    case CurrentSet => "Текущая нейросеть установлена: "
    case AlreadyCurrent => "Эта нейросеть уже текущая"
    case SelectionCancelled => "Выбор нейросети отменен"
    case TemperatureCancelled => "Изменение температуры отменено"
    case NotANumber => "Ошибка: введите число в формате 0.0–1.0 (можно использовать запятую)"
    case OutOfRange => "Ошибка: значение должно быть в диапазоне от 0.0 до 1.0"
    case ContentEmpty => "Изменения отменены - введен пустой текст"
    case ContentUpdated => "Контент обновлен успешно"
    case ContentInterrupted => "\nИзменения отменены"
    case InputError => "Ошибка при вводе: "
    case ContentCancelled => "Изменения отменены"
    case ModelUpdated => "Модель обновлена"
    case UrlUpdated => "API URL обновлен"
    case KeyUpdated => "API ключ обновлен"
    case CannotDeleteCurrent => "Нельзя удалить текущую нейросеть"
    case Deleted => "Нейросеть удалена"
    case Added => "Нейросеть добавлена"
    case AddError => "Ошибка: "
    case FieldsRequired => "Все поля обязательны кроме API ключа"
    case LogLevelUpdated => "Уровень логирования обновлен"
    case StreamUpdated => "Потоковый режим обновлен"
    case JsonUpdated => "JSON режим обновлен"
  }

  /** A printed line: a fixed phrase, a phrase followed by a detail, or the new temperature. */
  datatype Said = Line(p: Phrase) | LineWith(p: Phrase, detail: string) | TemperatureSet(value: real)

  // ---- prompt_clean ---------------------------------------------------------

  /** What `sys.stdout.write` or `sys.stderr.write` is bound to. */
  datatype Writer = Console | CancelFilter(inner: Writer)

  class Streams {
    var outWrite: Writer
    var errWrite: Writer
  }

  /** A write the filter swallows: a non-empty text containing inquirer's cancellation notice. */
  predicate Suppressed(s: string) {
    s != "" && Contains(s, "Cancelled by user")
  }

  /** The writes that reach the terminal through the filter, in order. */
  function Filtered(writes: seq<string>): seq<string> {
    if writes == [] then []
    else (if Suppressed(writes[0]) then [] else [writes[0]]) + Filtered(writes[1..])
  }

  /** Exactly the writes without the notice get through. */
  lemma {:induction false} FilteredKeeps(writes: seq<string>)
    ensures forall w :: w in Filtered(writes) <==> w in writes && !Suppressed(w)
    ensures |Filtered(writes)| <= |writes|
  {
    if writes != [] {
      FilteredKeeps(writes[1..]);
      assert writes == [writes[0]] + writes[1..];
    }
  }

  /**
   * `prompt_clean(questions)`: both writers are wrapped in the filter
   * while inquirer prompts (`writes` is what it writes meanwhile), and
   * put back afterwards whatever happens.  `outcome` is what
   * `inquirer.prompt` does: the answers, `None`, or an exception.  A
   * KeyboardInterrupt gives `None`; any other exception goes on up.
   */
  method PromptClean<T>(streams: Streams, writes: seq<string>, outcome: Result<Option<T>>)
    returns (answers: Option<T>, shown: seq<string>, raised: Option<Exc>)
    modifies streams
    ensures streams.outWrite == old(streams.outWrite) && streams.errWrite == old(streams.errWrite)
    ensures shown == Filtered(writes)
    ensures outcome.Ok? ==> answers == outcome.value && raised.None?
    ensures outcome.Err? ==> answers.None?
    ensures raised.Some? <==> outcome.Err? && !outcome.exc.KeyboardInterrupt?
    ensures raised.Some? ==> raised.value == outcome.exc
  {
    var oldOut := streams.outWrite;
    var oldErr := streams.errWrite;
    streams.outWrite := CancelFilter(oldOut);
    streams.errWrite := CancelFilter(oldErr);
    shown := Filtered(writes);
    answers, raised := None, None;
    match outcome {
      case Ok(a) => answers := a;
      case Err(e) =>
        if !e.KeyboardInterrupt? {
          raised := Some(e);
        }
    }
    streams.outWrite := oldOut;
    streams.errWrite := oldErr;
  }

  // ---- float() --------------------------------------------------------------

  /** A value `float()` returns: a finite number, or `inf`/`nan`. */
  datatype PyFloat = Finite(value: real) | NonFinite

  function Pow10(n: nat): (r: nat)
    ensures r >= 1
  {
    if n == 0 then 1 else 10 * Pow10(n - 1)
  }

  /** `m` times ten to the power `e`, one factor of ten at a time. */
  function Scaled(m: real, e: int): real
    decreases if e < 0 then -e else e
  {
    if e == 0 then m
    else if e > 0 then 10.0 * Scaled(m, e - 1)
    else Scaled(m, e + 1) / 10.0
  }

  /** Scaling is multiplication by a power of ten, or division by one. */
  lemma {:induction false} ScaledValue(m: real, e: int)
    ensures e >= 0 ==> Scaled(m, e) == m * Pow10(e) as real
    ensures e < 0 ==> Scaled(m, e) * Pow10(-e) as real == m
    decreases if e < 0 then -e else e
  {
    if e > 0 {
      ScaledValue(m, e - 1);
      assert Pow10(e) as real == 10.0 * Pow10(e - 1) as real;
    } else if e < 0 {
      ScaledValue(m, e + 1);
      var p := Pow10(-e - 1) as real;
      assert Pow10(-e) as real == 10.0 * p;
      assert Scaled(m, e) * (10.0 * p) == Scaled(m, e + 1) * p;
    }
  }

  /** Digits with single underscores between them, or nothing. */
  predicate DigitRun(s: string) { s == "" || DigitGroups(s) }

  /** The value of a digit run. */
  function RunValue(s: string): nat
    requires DigitRun(s)
  {
    if s == "" then 0
    else
      DropUnderscoresDigits(s);
      DigitsValue(DropUnderscores(s))
  }

  /** The part before the exponent: digits, a point, digits, with a digit on at least one side. */
  function Mantissa(s: string): Option<real> {
    match IndexFrom(s, ".", 0)
    case None => if DigitGroups(s) then Some(RunValue(s) as real) else None
    case Some(i) =>
      var whole := s[..i];
      var frac := s[i + 1..];
      if DigitRun(whole) && DigitRun(frac) && (whole != "" || frac != "") then
        Some(RunValue(whole) as real + Scaled(RunValue(frac) as real, -|DropUnderscores(frac)|))
      else None
  }

  /**
   * An unsigned decimal literal, scanned from `from` for the exponent
   * mark: a mantissa, then optionally `e` or `E`, a sign and digits.
   */
  function DecimalFrom(s: string, from: nat): Option<real>
    decreases |s| - from
  {
    if from >= |s| then Mantissa(s)
    else if s[from] == 'e' || s[from] == 'E' then
      match (Mantissa(s[..from]), ParseStripped(s[from + 1..]))
      case (Some(m), Some(e)) => Some(Scaled(m, e))
      case _ => None
    else DecimalFrom(s, from + 1)
  }

  function Decimal(s: string): Option<real> { DecimalFrom(s, 0) }

  /** An unsigned body: `inf`, `infinity` or `nan` in any letter case, or a decimal literal. */
  function Unsigned(body: string): Option<PyFloat> {
    if InWords(Lower(body), ["inf", "infinity", "nan"]) then Some(NonFinite)
    else
      match Decimal(body)
      case None => None
      case Some(m) => Some(Finite(m))
  }

  function Negated(f: Option<PyFloat>): Option<PyFloat> {
    match f
    case Some(Finite(v)) => Some(Finite(-v))
    case _ => f
  }

  /** A body with an optional leading sign. */
  function Signed(t: string): Option<PyFloat> {
    if |t| > 0 && t[0] == '-' then Negated(Unsigned(t[1..]))
    else if |t| > 0 && t[0] == '+' then Unsigned(t[1..])
    else Unsigned(t)
  }

  /**
   * `float(s)` on a string; `None` where Python raises ValueError.  Outer
   * white space is ignored.
   */
  function FloatOf(s: string): Option<PyFloat> {
    Signed(Strip(s))
  }

  predicate AllDigits(s: string) { forall i :: 0 <= i < |s| ==> IsDigitChar(s[i]) }

  /** A character that is nowhere in `s` is not found by `find` or `in`. */
  lemma CharAbsent(s: string, c: char)
    requires forall i :: 0 <= i < |s| ==> s[i] != c
    ensures forall j :: !OccursAt(s, [c], j)
    ensures IndexFrom(s, [c], 0).None? && !Contains(s, [c])
  {
    forall j | 0 <= j < |s| ensures !OccursAt(s, [c], j) {
      if j + 1 <= |s| {
        assert s[j..j + 1][0] == s[j];
      }
    }
  }

  lemma {:induction false} MarkAbsent(s: string, from: nat)
    requires forall i :: 0 <= i < |s| ==> s[i] != 'e' && s[i] != 'E'
    ensures DecimalFrom(s, from) == Mantissa(s)
    decreases |s| - from
  {
    if from < |s| {
      MarkAbsent(s, from + 1);
    }
  }

  /** The number written by the digits before index `i` and the digits after it. */
  function PointValue(s: string, i: nat): real
    requires i < |s| && IsDigits(s[..i]) && IsDigits(s[i + 1..])
  {
    DigitsValue(s[..i]) as real + Scaled(DigitsValue(s[i + 1..]) as real, -|s[i + 1..]|)
  }

  /** The mantissa split at its first point. */
  lemma MantissaAt(s: string, i: nat)
    requires IndexFrom(s, ".", 0) == Some(i)
    requires IsDigits(s[..i]) && IsDigits(s[i + 1..])
    ensures Mantissa(s) == Some(DigitsValue(s[..i]) as real + Scaled(DigitsValue(s[i + 1..]) as real, -|s[i + 1..]|))
  {
    RunOfDigits(s[..i]);
    RunOfDigits(s[i + 1..]);
  }

  /** A plain digit string is a digit run worth its value. */
  lemma RunOfDigits(d: string)
    requires IsDigits(d)
    ensures DigitRun(d) && RunValue(d) == DigitsValue(d) && DropUnderscores(d) == d
  {
    DigitsAreGroups(d);
  }

  /** A digit string read as a decimal literal is its value. */
  lemma DecimalDigits(d: string)
    requires IsDigits(d)
    ensures Decimal(d) == Some(DigitsValue(d) as real)
  {
    MarkAbsent(d, 0);
    CharAbsent(d, '.');
    DigitsAreGroups(d);
  }

  /** Digits, a point and digits read as a decimal literal is the fraction they write. */
  lemma DecimalPoint(s: string, i: nat)
    requires i < |s| && s[i] == '.' && IsDigits(s[..i]) && IsDigits(s[i + 1..])
    ensures Decimal(s) == Some(PointValue(s, i))
  {
    CharAbsent(s[..i], '.');
    forall j | 0 <= j < i ensures !OccursAt(s, ".", j) {
      assert s[j..j + 1][0] == s[j] == s[..i][j];
    }
    assert OccursAt(s, ".", i) by { assert s[i..i + 1] == "."; }
    IndexFromFirst(s, ".", 0, i);
    forall k | 0 <= k < |s| ensures s[k] != 'e' && s[k] != 'E' {
      if k < i { assert s[k] == s[..i][k]; }
      else if k > i { assert s[k] == s[i + 1..][k - i - 1]; }
    }
    MarkAbsent(s, 0);
    MantissaAt(s, i);
  }

  /** A body led by a digit has no sign and is no `inf` or `nan` word. */
  lemma DigitLed(t: string)
    requires |t| > 0 && IsDigitChar(t[0])
    ensures Signed(t) == match Decimal(t) case None => None case Some(m) => Some(Finite(m))
  {
    assert Lower(t)[0] == t[0];
    InWordsIff(Lower(t), ["inf", "infinity", "nan"]);
  }

  /** A string led and ended by a digit has no outer white space. */
  lemma DigitBounded(s: string)
    requires |s| > 0 && IsDigitChar(s[0]) && IsDigitChar(s[|s| - 1])
    ensures Strip(s) == s
  {
    StripUnchanged(s);
  }

  /** `float()` of a digit string is its value. */
  lemma FloatOfDigits(d: string)
    requires IsDigits(d)
    ensures FloatOf(d) == Some(Finite(DigitsValue(d) as real))
  {
    assert IsDigitChar(d[0]) && IsDigitChar(d[|d| - 1]);
    DigitBounded(d);
    DigitLed(d);
    DecimalDigits(d);
  }

  /** A signed body of digits, a point and digits. */
  lemma SignedPoint(s: string, i: nat)
    requires i < |s| && s[i] == '.' && IsDigits(s[..i]) && IsDigits(s[i + 1..])
    ensures Signed(s) == Some(Finite(PointValue(s, i)))
  {
    assert IsDigitChar(s[..i][0]);
    DigitLed(s);
    DecimalPoint(s, i);
  }

  lemma FloatOfStripped(s: string)
    requires Strip(s) == s
    ensures FloatOf(s) == Signed(s)
  {
  }

  /** `float()` of digits, a point and digits is the decimal fraction they write. */
  lemma FloatOfPoint(s: string, i: nat)
    requires i < |s| && s[i] == '.' && IsDigits(s[..i]) && IsDigits(s[i + 1..])
    ensures FloatOf(s) == Some(Finite(PointValue(s, i)))
  {
    assert IsDigitChar(s[..i][0]) && IsDigitChar(s[i + 1..][|s| - i - 2]);
    DigitBounded(s);
    FloatOfStripped(s);
    SignedPoint(s, i);
  }

  lemma SignedNan()
    ensures Signed("nan") == Some(NonFinite)
  {
    assert Lower("nan") == "nan";
    InWordsIff("nan", ["inf", "infinity", "nan"]);
  }

  lemma SignedMinusInf()
    ensures Signed("-Inf") == Some(NonFinite)
  {
    assert "-Inf"[1..] == "Inf";
    assert Lower("Inf") == "inf";
    InWordsIff("inf", ["inf", "infinity", "nan"]);
  }

  /** `float()` reads `inf` whatever its case and sign. */
  lemma FloatOfInf()
    ensures FloatOf("-Inf") == Some(NonFinite)
  {
    StripUnchanged("-Inf");
    FloatOfStripped("-Inf");
    SignedMinusInf();
  }

  /** `float()` reads `nan`. */
  lemma FloatOfNan()
    ensures FloatOf("nan") == Some(NonFinite)
  {
    StripUnchanged("nan");
    FloatOfStripped("nan");
    SignedNan();
  }

  /** Replacing the comma of digits, comma, digits gives digits, point, digits. */
  lemma {:induction false} CommaToPoint(a: string, b: string)
    requires AllDigits(a) && AllDigits(b)
    ensures Replace(a + "," + b, ",", ".") == a + "." + b
    decreases |a|
  {
    var s := a + "," + b;
    if a == [] {
      assert s == "," + b;
      assert s[..1] == ",";
      assert s[1..] == b;
      CharAbsent(b, ',');
      ReplaceAbsent(b, ",", ".");
    } else {
      assert s[..1] != "," by { assert s[..1][0] == a[0]; }
      assert Replace(s, ",", ".") == [a[0]] + Replace(s[1..], ",", ".");
      assert s[1..] == a[1..] + "," + b;
      CommaToPoint(a[1..], b);
      assert [a[0]] + (a[1..] + "." + b) == a + "." + b;
    }
  }

  // ---- set_temperature ------------------------------------------------------

  /** What one reply to the temperature prompt leads to. */
  datatype Attempt = Cancelled | Retry(reason: Phrase) | Accept(value: real)

  /**
   * One pass of the `set_temperature` loop: no answers (Ctrl+C) or a blank
   * value cancel; commas are read as points; something `parse` refuses,
   * `inf`, `nan` or a number outside [0, 1] asks again.  `parse` stands
   * for `float()`: the menu uses `FloatOf`.
   */
  function TemperatureAttempt(parse: string -> Option<PyFloat>, reply: Option<string>): (r: Attempt)
    ensures r.Accept? ==> 0.0 <= r.value <= 1.0
  {
    if reply.None? then Cancelled
    else
      var raw := Strip(reply.value);
      if raw == "" then Cancelled
      else
        match parse(Replace(raw, ",", "."))
        case None => Retry(NotANumber)
        case Some(NonFinite) => Retry(OutOfRange)
        case Some(Finite(v)) => if 0.0 <= v <= 1.0 then Accept(v) else Retry(OutOfRange)
  }

  /** Only a missing answer or a blank value cancels; every other reply is parsed. */
  lemma TemperatureCancelIff(parse: string -> Option<PyFloat>, reply: Option<string>)
    ensures TemperatureAttempt(parse, reply).Cancelled? <==> reply.None? || Strip(reply.value) == ""
  {
  }

  /** Each reply classified in turn. */
  function Attempts(parse: string -> Option<PyFloat>, replies: seq<Option<string>>): (r: seq<Attempt>)
    ensures |r| == |replies|
  {
    if replies == [] then [] else [TemperatureAttempt(parse, replies[0])] + Attempts(parse, replies[1..])
  }

  lemma {:induction false} AttemptAt(parse: string -> Option<PyFloat>, replies: seq<Option<string>>, i: nat)
    requires i < |replies|
    ensures Attempts(parse, replies)[i] == TemperatureAttempt(parse, replies[i])
    decreases i
  {
    if i > 0 {
      AttemptAt(parse, replies[1..], i - 1);
    }
  }

  /**
   * The loop over the successive replies, once classified: the value
   * stored (if any), what is printed, and whether the loop returned
   * before the replies ran out.
   */
  function TemperatureFrom(said: seq<Said>, attempts: seq<Attempt>): (Option<real>, seq<Said>, bool)
    decreases |attempts|
  {
    if attempts == [] then (None, said, false)
    else
      match attempts[0]
      case Cancelled => (None, said + [Line(TemperatureCancelled)], true)
      case Retry(p) => TemperatureFrom(said + [Line(p)], attempts[1..])
      case Accept(v) => (Some(v), said + [TemperatureSet(v)], true)
  }

  /** `set_temperature` on the successive replies, read with `float()`. */
  function Temperature(replies: seq<Option<string>>): (Option<real>, seq<Said>, bool) {
    TemperatureFrom([], Attempts(FloatOf, replies))
  }

  /** The loop only adds lines, and a loop that returned printed something. */
  lemma {:induction false} TemperatureKeepsSaid(said: seq<Said>, attempts: seq<Attempt>)
    ensures var r := TemperatureFrom(said, attempts);
      |r.1| >= |said| && r.1[..|said|] == said && (r.2 ==> |r.1| > |said|)
    decreases |attempts|
  {
    if attempts != [] && attempts[0].Retry? {
      var p := attempts[0].reason;
      TemperatureKeepsSaid(said + [Line(p)], attempts[1..]);
      var r := TemperatureFrom(said + [Line(p)], attempts[1..]);
      assert r.1[..|said|] == (r.1[..|said| + 1])[..|said|];
    }
  }

  /**
   * A temperature is stored at most once, only if some attempt was
   * accepted, and as the last step, announced by the last line printed.
   */
  lemma {:induction false} TemperatureStoredLast(said: seq<Said>, attempts: seq<Attempt>)
    ensures var r := TemperatureFrom(said, attempts);
      r.0.Some? ==> Accept(r.0.value) in attempts && r.2 && |r.1| > 0 && r.1[|r.1| - 1] == TemperatureSet(r.0.value)
    decreases |attempts|
  {
    if attempts != [] && attempts[0].Retry? {
      TemperatureStoredLast(said + [Line(attempts[0].reason)], attempts[1..]);
      assert attempts == [attempts[0]] + attempts[1..];
    }
  }

  /** Whatever the replies, a stored temperature lies in [0, 1]. */
  lemma TemperatureStoredInRange(replies: seq<Option<string>>)
    ensures var r := Temperature(replies);
      r.0.Some? ==> 0.0 <= r.0.value <= 1.0 && r.2 && |r.1| > 0 && r.1[|r.1| - 1] == TemperatureSet(r.0.value)
  {
    var attempts := Attempts(FloatOf, replies);
    TemperatureStoredLast([], attempts);
    var r := TemperatureFrom([], attempts);
    if r.0.Some? {
      var i :| 0 <= i < |attempts| && attempts[i] == Accept(r.0.value);
      AttemptAt(FloatOf, replies, i);
    }
  }

  /** The classification of a reply from what `parse` makes of it. */
  lemma AttemptOfParsed(parse: string -> Option<PyFloat>, text: string, f: Option<PyFloat>)
    requires Strip(text) != "" && parse(Replace(Strip(text), ",", ".")) == f
    ensures TemperatureAttempt(parse, Some(text)) == match f
      case None => Retry(NotANumber)
      case Some(NonFinite) => Retry(OutOfRange)
      case Some(Finite(v)) => if 0.0 <= v <= 1.0 then Accept(v) else Retry(OutOfRange)
  {
  }

  /** Replacing the comma between two digit strings puts a point in its place and keeps the rest. */
  lemma CommaSwap(t: string, i: nat)
    requires i < |t| && t[i] == ',' && IsDigits(t[..i]) && IsDigits(t[i + 1..])
    ensures var s := Replace(t, ",", ".");
      i < |s| && s[i] == '.' && IsDigits(s[..i]) && IsDigits(s[i + 1..]) && PointValue(s, i) == PointValue(t, i)
  {
    var a, b := t[..i], t[i + 1..];
    assert t == a + "," + b;
    CommaToPoint(a, b);
    var s := a + "." + b;
    assert s[i] == '.' && s[..i] == a && s[i + 1..] == b;
  }

  /**
   * A comma works as the decimal point: digits, a comma and digits are
   * accepted as that fraction when it lies in [0, 1], and refused with the
   * range message otherwise.
   */
  lemma TemperatureComma(t: string, i: nat)
    requires i < |t| && t[i] == ',' && IsDigits(t[..i]) && IsDigits(t[i + 1..])
    ensures var v := PointValue(t, i);
      TemperatureAttempt(FloatOf, Some(t)) == if 0.0 <= v <= 1.0 then Accept(v) else Retry(OutOfRange)
  {
    var v := PointValue(t, i);
    assert FloatOf(Replace(Strip(t), ",", ".")) == Some(Finite(v)) by {
      CommaFloat(t, i);
    }
    AttemptOfParsed(FloatOf, t, Some(Finite(v)));
  }

  /** What `float()` makes of such a reply once stripped and with its comma replaced. */
  lemma CommaFloat(t: string, i: nat)
    requires i < |t| && t[i] == ',' && IsDigits(t[..i]) && IsDigits(t[i + 1..])
    ensures FloatOf(Replace(Strip(t), ",", ".")) == Some(Finite(PointValue(t, i)))
  {
    CommaStripped(t, i);
    CommaPoint(t, i);
  }

  lemma CommaStripped(t: string, i: nat)
    requires i < |t| && IsDigits(t[..i]) && IsDigits(t[i + 1..])
    ensures Strip(t) == t
  {
    assert IsDigitChar(t[..i][0]) && IsDigitChar(t[i + 1..][|t| - i - 2]);
    DigitBounded(t);
  }

  lemma CommaPoint(t: string, i: nat)
    requires i < |t| && t[i] == ',' && IsDigits(t[..i]) && IsDigits(t[i + 1..])
    ensures FloatOf(Replace(t, ",", ".")) == Some(Finite(PointValue(t, i)))
  {
    CommaSwap(t, i);
    FloatOfPoint(Replace(t, ",", "."), i);
  }

  /** A whole number is read as itself once the comma step leaves it unchanged. */
  lemma WholeReply(d: string)
    requires IsDigits(d)
    ensures Strip(d) == d && Replace(Strip(d), ",", ".") == d
  {
    assert IsDigitChar(d[0]) && IsDigitChar(d[|d| - 1]);
    StripUnchanged(d);
    CharAbsent(d, ',');
    ReplaceAbsent(d, ",", ".");
  }

  /** A whole number above one is refused with the range message, and the prompt comes back. */
  lemma TemperatureAboveOne(d: string)
    requires IsDigits(d) && DigitsValue(d) > 1
    ensures TemperatureAttempt(FloatOf, Some(d)) == Retry(OutOfRange)
  {
    assert FloatOf(Replace(Strip(d), ",", ".")) == Some(Finite(DigitsValue(d) as real)) by {
      WholeReply(d);
      FloatOfDigits(d);
    }
    AttemptOfParsed(FloatOf, d, Some(Finite(DigitsValue(d) as real)));
  }

  // ---- the config object ----------------------------------------------------

  /** The `config` object of `aiebash.config_manager`, as far as the menu uses it. */
  class MenuConfig {
    /** `get_available_llms()` */
    var llmNames: seq<string>
    /** `get_llm_config(name)` for each name */
    var llms: map<string, ConfigMenu.Llm>
    var currentLlm: string
    var userContent: string
    var temperature: real
    var consoleLogLevel: string
    var streamMode: bool
    var jsonMode: bool

    /** The listed names are the entries' names, each once. */
    ghost predicate Valid()
      reads this
    {
      ProviderManagement.Distinct(llmNames) && forall k :: k in llms <==> k in llmNames
    }
  }

  /** One pass of the loop, once the reply is classified: print, and store an accepted value. */
  method ApplyAttempt(config: MenuConfig, a: Attempt, said: seq<Said>) returns (after: seq<Said>, finished: bool)
    modifies config`temperature
    ensures finished == !a.Retry?
    ensures after == said + [match a
      case Cancelled => Line(TemperatureCancelled)
      case Retry(p) => Line(p)
      case Accept(v) => TemperatureSet(v)]
    ensures config.temperature == if a.Accept? then a.value else old(config.temperature)
  {
    match a {
      case Cancelled =>
        after, finished := said + [Line(TemperatureCancelled)], true;
      case Retry(p) =>
        after, finished := said + [Line(p)], false;
      case Accept(v) =>
        config.temperature := v;
        after, finished := said + [TemperatureSet(v)], true;
    }
  }

  /**
   * `set_temperature`: prompt until a reply cancels or gives a value in
   * [0, 1], which is stored.
   */
  method SetTemperature(config: MenuConfig, replies: seq<Option<string>>) returns (said: seq<Said>, finished: bool)
    modifies config`temperature
    ensures var r := Temperature(replies);
      said == r.1 && finished == r.2
      && config.temperature == if r.0.Some? then r.0.value else old(config.temperature)
  {
    said, finished := [], false;
    var k := 0;
    ghost var last := Temperature(replies);
    while k < |replies| && !finished
      invariant 0 <= k <= |replies|
      invariant !finished ==> (TemperatureFrom(said, Attempts(FloatOf, replies)[k..]) == last
        && config.temperature == old(config.temperature))
      invariant finished ==> (said == last.1 && last.2
        && config.temperature == if last.0.Some? then last.0.value else old(config.temperature))
      decreases |replies| - k
    {
      said, finished := TemperaturePass(config, replies, k, said, last);
      k := k + 1;
    }
    if !finished {
      assert Attempts(FloatOf, replies)[k..] == [];
    }
  }

  /** One pass of the loop of `set_temperature`, over the `k`-th reply. */
  method TemperaturePass(config: MenuConfig, replies: seq<Option<string>>, k: nat, said: seq<Said>,
                         ghost last: (Option<real>, seq<Said>, bool))
    returns (after: seq<Said>, finished: bool)
    requires k < |replies| && TemperatureFrom(said, Attempts(FloatOf, replies)[k..]) == last
    modifies config`temperature
    ensures !finished ==> (TemperatureFrom(after, Attempts(FloatOf, replies)[k + 1..]) == last
      && config.temperature == old(config.temperature))
    ensures finished ==> (after == last.1 && last.2
      && config.temperature == if last.0.Some? then last.0.value else old(config.temperature))
  {
    ghost var attempts := Attempts(FloatOf, replies);
    assert attempts[k..][0] == attempts[k] && attempts[k..][1..] == attempts[k + 1..];
    AttemptAt(FloatOf, replies, k);
    var a := TemperatureAttempt(FloatOf, replies[k]);
    after, finished := ApplyAttempt(config, a, said);
  }

  // ---- edit_user_content -----------------------------------------------------

  /** Each typed backslash-`n` pair becomes a line break. */
  function Unescape(s: string): string {
    Replace(s, "\\n", "\n")
  }

  /** An unescaped text starts with `n` only where the typed one did. */
  lemma UnescapeHead(t: string)
    requires |Unescape(t)| > 0 && Unescape(t)[0] == 'n'
    ensures |t| > 0 && t[0] == 'n'
  {
  }

  /** Past the first character, a pair occurs where it occurs in the rest. */
  lemma ConsOccurs(c: char, rest: string, j: int)
    requires j >= 1
    ensures OccursAt([c] + rest, "\\n", j) == OccursAt(rest, "\\n", j - 1)
  {
    if j + 2 <= |rest| + 1 {
      assert ([c] + rest)[j..j + 2] == rest[j - 1..j + 1];
    }
  }

  /** No backslash-`n` pair is left once the text is unescaped. */
  lemma {:induction false} UnescapeComplete(s: string)
    ensures forall j :: !OccursAt(Unescape(s), "\\n", j)
    decreases |s|
  {
    if |s| >= 2 {
      var u := Unescape(s);
      var c, rest;
      if s[..2] == "\\n" {
        c, rest := '\n', Unescape(s[2..]);
        UnescapeComplete(s[2..]);
        assert u == [c] + rest;
      } else {
        c, rest := s[0], Unescape(s[1..]);
        UnescapeComplete(s[1..]);
        assert u == [c] + rest;
        if |rest| > 0 && rest[0] == 'n' {
          UnescapeHead(s[1..]);
          assert s[..2] == [s[0], 'n'];
        }
      }
      forall j ensures !OccursAt(u, "\\n", j) {
        if j >= 1 {
          ConsOccurs(c, rest, j);
        } else if j == 0 && |u| >= 2 {
          assert u[0..2] == [u[0], u[1]];
        }
      }
    }
  }

  /** A text without a backslash-`n` pair is stored as typed. */
  lemma UnescapePlain(s: string)
    requires !Contains(s, "\\n")
    ensures Unescape(s) == s
  {
    ReplaceAbsent(s, "\\n", "\n");
  }

  /**
   * `edit_user_content`: the line `input()` read, or the exception it
   * raised.  A blank line changes nothing; otherwise the stripped line,
   * unescaped, becomes the user content.
   */
  method EditUserContent(config: MenuConfig, input: Result<string>) returns (said: seq<Said>)
    modifies config`userContent
    ensures input.Ok? && Strip(input.value) != "" ==>
      config.userContent == Unescape(Strip(input.value)) && said == [Line(ContentUpdated)]
    ensures !(input.Ok? && Strip(input.value) != "") ==> config.userContent == old(config.userContent)
    ensures input.Ok? && Strip(input.value) == "" ==> said == [Line(ContentEmpty)]
    ensures input.Err? && input.exc.KeyboardInterrupt? ==> said == [Line(ContentInterrupted)]
    ensures input.Err? && !input.exc.KeyboardInterrupt? ==>
      said == [LineWith(InputError, ExcText(input.exc)), Line(ContentCancelled)]
  {
    match input {
      case Err(e) =>
        if e.KeyboardInterrupt? {
          said := [Line(ContentInterrupted)];
        } else {
          said := [LineWith(InputError, ExcText(e)), Line(ContentCancelled)];
        }
      case Ok(line) =>
        var typed := Strip(line);
        if typed == "" {
          said := [Line(ContentEmpty)];
        } else {
          config.userContent := Unescape(typed);
          said := [Line(ContentUpdated)];
        }
    }
  }

  // ---- add_llm ---------------------------------------------------------------

  /** The form was submitted with a name, a model and a URL; the key may be empty. */
  predicate Complete(answers: Option<ConfigMenu.LlmForm>) {
    answers.Some? && answers.value.name != "" && answers.value.model != "" && answers.value.apiUrl != ""
  }

  /**
   * `add_llm`.  `refusal` is the message of the ValueError the
   * configuration raises when it will not add the entry.
   */
  method AddLlm(config: MenuConfig, answers: Option<ConfigMenu.LlmForm>, refusal: Option<string>) returns (said: seq<Said>)
    requires config.Valid()
    modifies config`llmNames, config`llms
    ensures config.Valid()
    ensures !Complete(answers) ==> said == [Line(FieldsRequired)]
    ensures Complete(answers) && refusal.Some? ==> said == [LineWith(AddError, refusal.value)]
    ensures !Complete(answers) || refusal.Some? ==>
      config.llmNames == old(config.llmNames) && config.llms == old(config.llms)
    ensures Complete(answers) && refusal.None? ==>
      var f := answers.value;
      said == [Line(Added)]
      && config.llms == old(config.llms)[f.name := ConfigMenu.Llm(f.model, f.apiUrl, f.apiKey)]
      && config.llmNames == if f.name in old(config.llmNames) then old(config.llmNames) else old(config.llmNames) + [f.name]
  {
    if !Complete(answers) {
      said := [Line(FieldsRequired)];
    } else if refusal.Some? {
      said := [LineWith(AddError, refusal.value)];
    } else {
      var f := answers.value;
      if f.name !in config.llmNames {
        config.llmNames := config.llmNames + [f.name];
      }
      config.llms := config.llms[f.name := ConfigMenu.Llm(f.model, f.apiUrl, f.apiKey)];
      said := [Line(Added)];
    }
  }

  // ---- edit_llm --------------------------------------------------------------

  /** The actions `edit_llm` offers. */
  datatype EditAction = ChangeModel | ChangeUrl | ChangeKey | Delete | Back

  /** An entry with one field replaced by what was typed, which may be empty. */
  function Changed(llm: ConfigMenu.Llm, action: EditAction, value: string): (r: ConfigMenu.Llm)
    requires action in {ChangeModel, ChangeUrl, ChangeKey}
    ensures r.model == (if action == ChangeModel then value else llm.model)
    ensures r.apiUrl == (if action == ChangeUrl then value else llm.apiUrl)
    ensures r.apiKey == (if action == ChangeKey then value else llm.apiKey)
  {
    match action
    case ChangeModel => llm.(model := value)
    case ChangeUrl => llm.(apiUrl := value)
    case ChangeKey => llm.(apiKey := value)
  }

  function ChangedPhrase(action: EditAction): Phrase
    requires action in {ChangeModel, ChangeUrl, ChangeKey}
  {
    match action
    case ChangeModel => ModelUpdated
    case ChangeUrl => UrlUpdated
    case ChangeKey => KeyUpdated
  }

  /**
   * `edit_llm(name)` for a listed name: the chosen action, the new value
   * typed for a change, and the answer to the confirmation of a delete;
   * `None` where the prompt was cancelled.
   */
  method EditLlm(config: MenuConfig, name: string, action: Option<EditAction>, value: Option<string>, confirm: Option<bool>)
    returns (said: seq<Said>)
    requires config.Valid() && name in config.llms
    modifies config`llmNames, config`llms
    ensures config.Valid()
    ensures old(config.currentLlm) in old(config.llms) ==> config.currentLlm in config.llms
    ensures forall k :: k in config.llms && k != name ==> k in old(config.llms) && config.llms[k] == old(config.llms)[k]
    ensures forall k :: k in old(config.llms) && k != name ==> k in config.llms
    ensures action.Some? && action.value in {ChangeModel, ChangeUrl, ChangeKey} && value.Some? ==>
      config.llms == old(config.llms)[name := Changed(old(config.llms)[name], action.value, value.value)]
      && config.llmNames == old(config.llmNames) && said == [Line(ChangedPhrase(action.value))]
    ensures action == Some(Delete) && name == config.currentLlm ==>
      said == [Line(CannotDeleteCurrent)] && config.llms == old(config.llms) && config.llmNames == old(config.llmNames)
    ensures action == Some(Delete) && name != config.currentLlm && confirm == Some(true) ==>
      config.llms == old(config.llms) - {name} && config.llmNames == ProviderManagement.Without(old(config.llmNames), name)
      && said == [Line(Deleted)]
    ensures (!(action.Some? && action.value in {ChangeModel, ChangeUrl, ChangeKey} && value.Some?)
      && !(action == Some(Delete) && name == config.currentLlm)
      && !(action == Some(Delete) && confirm == Some(true))) ==>
      said == [] && config.llms == old(config.llms) && config.llmNames == old(config.llmNames)
  {
    said := [];
    if action.None? || action.value == Back {
      return;
    }
    var a := action.value;
    if a == Delete {
      if name == config.currentLlm {
        said := [Line(CannotDeleteCurrent)];
      } else if confirm == Some(true) {
        ProviderManagement.WithoutDistinct(config.llmNames, name);
        config.llmNames := ProviderManagement.Without(config.llmNames, name);
        config.llms := config.llms - {name};
        said := [Line(Deleted)];
      }
    } else if value.Some? {
      config.llms := config.llms[name := Changed(config.llms[name], a, value.value)];
      said := [Line(ChangedPhrase(a))];
    }
  }

  // ---- select_current_llm ----------------------------------------------------

  /**
   * `select_current_llm` over the successive picks (`None` where the
   * prompt was cancelled): the current LLM at the end, the lines printed,
   * and whether the menu was left (rather than the picks running out).
   */
  function SelectFrom(names: seq<string>, current: string, picks: seq<Option<string>>): (r: (string, seq<Said>, bool))
    decreases |picks|
  {
    if names == [] then (current, [Line(NoLlms)], true)
    else if picks == [] then (current, [], false)
    else if picks[0].None? || picks[0].value == "" then (current, [Line(SelectionCancelled)], true)
    else if picks[0].value == "back" then (current, [], true)
    else if picks[0].value != current then
      var rest := SelectFrom(names, picks[0].value, picks[1..]);
      (rest.0, [LineWith(CurrentSet, picks[0].value)] + rest.1, rest.2)
    else
      var rest := SelectFrom(names, current, picks[1..]);
      (rest.0, [Line(AlreadyCurrent)] + rest.1, rest.2)
  }

  /** A pick the list offers: one of the names, or the way back. */
  predicate Offered(names: seq<string>, pick: Option<string>) {
    pick.Some? ==> pick.value in names || pick.value == "back"
  }

  /**
   * The current LLM either stays as it was or becomes one picked from the
   * list; `back` and an empty answer are never stored, so an LLM named
   * `back` cannot be made current here.
   */
  lemma {:induction false} SelectedListed(names: seq<string>, current: string, picks: seq<Option<string>>)
    requires forall i :: 0 <= i < |picks| ==> Offered(names, picks[i])
    ensures var r := SelectFrom(names, current, picks);
      r.0 == current || (r.0 in names && r.0 != "back" && r.0 != "")
    decreases |picks|
  {
    if names != [] && picks != [] && picks[0].Some? && picks[0].value != "" && picks[0].value != "back" {
      assert Offered(names, picks[0]);
      var next := if picks[0].value != current then picks[0].value else current;
      SelectedListed(names, next, picks[1..]);
    }
  }

  /** With nothing to choose from, nothing changes and the menu is left at once. */
  lemma SelectNoLlms(current: string, picks: seq<Option<string>>)
    ensures SelectFrom([], current, picks) == (current, [Line(NoLlms)], true)
  {
  }

  /** Picking the current LLM again, or leaving, changes nothing. */
  lemma {:induction false} SelectSameKeeps(names: seq<string>, current: string, picks: seq<Option<string>>)
    requires forall i :: 0 <= i < |picks| ==> picks[i].None? || picks[i].value in {current, "back", ""}
    ensures SelectFrom(names, current, picks).0 == current
    decreases |picks|
  {
    if names != [] && picks != [] && picks[0].Some? && picks[0].value == current && current != "" && current != "back" {
      SelectSameKeeps(names, current, picks[1..]);
    }
  }

  /** Every pick made before the menu is left is reported by one line. */
  lemma {:induction false} SelectLines(names: seq<string>, current: string, picks: seq<Option<string>>)
    requires names != []
    ensures var r := SelectFrom(names, current, picks);
      |r.1| <= |picks| && (!r.2 ==> |r.1| == |picks|)
    decreases |picks|
  {
    if picks != [] && picks[0].Some? && picks[0].value != "" && picks[0].value != "back" {
      var next := if picks[0].value != current then picks[0].value else current;
      SelectLines(names, next, picks[1..]);
    }
  }

  method SelectCurrentLlm(config: MenuConfig, picks: seq<Option<string>>) returns (said: seq<Said>, finished: bool)
    modifies config`currentLlm
    ensures var r := SelectFrom(config.llmNames, old(config.currentLlm), picks);
      config.currentLlm == r.0 && said == r.1 && finished == r.2
  {
    said, finished := [], false;
    ghost var last := SelectFrom(config.llmNames, config.currentLlm, picks);
    var k := 0;
    while !finished
      invariant 0 <= k <= |picks|
      invariant !finished ==> (var r := SelectFrom(config.llmNames, config.currentLlm, picks[k..]);
        r.0 == last.0 && said + r.1 == last.1 && r.2 == last.2)
      invariant finished ==> config.currentLlm == last.0 && said == last.1 && last.2
      decreases |picks| - k, if finished then 0 else 1
    {
      if config.llmNames == [] {
        said, finished := said + [Line(NoLlms)], true;
      } else if k == |picks| {
        break;
      } else {
        assert picks[k..][0] == picks[k] && picks[k..][1..] == picks[k + 1..];
        var pick := picks[k];
        k := k + 1;
        if pick.None? || pick.value == "" {
          said, finished := said + [Line(SelectionCancelled)], true;
        } else if pick.value == "back" {
          finished := true;
        } else if pick.value != config.currentLlm {
          config.currentLlm := pick.value;
          said := said + [LineWith(CurrentSet, pick.value)];
        } else {
          said := said + [Line(AlreadyCurrent)];
        }
      }
    }
    if !finished {
      assert picks[k..] == [];
    }
  }

  // ---- llm_management_menu and the system settings -----------------------------

  /** What one answer of the management menu leads to. */
  datatype ManagementChoice = Leave | AddNew | EditName(name: string)

  /**
   * One pass of `llm_management_menu`: the answer is a listed name, `add`
   * or `back`, which are checked first.
   */
  function ManagementStep(answer: Option<string>): (r: ManagementChoice)
    ensures r.EditName? <==> answer.Some? && answer.value != "add" && answer.value != "back"
    ensures r.EditName? ==> r.name == answer.value
    ensures r == AddNew <==> answer == Some("add")
  {
    if answer.None? then Leave
    else if answer.value == "add" then AddNew
    else if answer.value == "back" then Leave
    else EditName(answer.value)
  }

  /** The levels `set_log_level` offers. */
  const LogLevels: seq<string> := ["DEBUG", "INFO", "WARNING", "ERROR", "CRITICAL"]

  /** `set_log_level`: the index of the level picked, `None` if cancelled. */
  method SetLogLevel(config: MenuConfig, answer: Option<nat>) returns (said: seq<Said>)
    requires answer.Some? ==> answer.value < |LogLevels|
    modifies config`consoleLogLevel
    ensures answer.Some? ==> config.consoleLogLevel == LogLevels[answer.value] && said == [Line(LogLevelUpdated)]
    ensures answer.None? ==> config.consoleLogLevel == old(config.consoleLogLevel) && said == []
    ensures old(config.consoleLogLevel) in LogLevels ==> config.consoleLogLevel in LogLevels
  {
    said := [];
    if answer.Some? {
      config.consoleLogLevel := LogLevels[answer.value];
      said := [Line(LogLevelUpdated)];
    }
  }

  /** `set_stream_mode`: on or off, `None` if cancelled. */
  method SetStreamMode(config: MenuConfig, answer: Option<bool>) returns (said: seq<Said>)
    modifies config`streamMode
    ensures config.streamMode == if answer.Some? then answer.value else old(config.streamMode)
    ensures said == if answer.Some? then [Line(StreamUpdated)] else []
  {
    said := [];
    if answer.Some? {
      config.streamMode := answer.value;
      said := [Line(StreamUpdated)];
    }
  }

  /** `set_json_mode`: on or off, `None` if cancelled. */
  method SetJsonMode(config: MenuConfig, answer: Option<bool>) returns (said: seq<Said>)
    modifies config`jsonMode
    ensures config.jsonMode == if answer.Some? then answer.value else old(config.jsonMode)
    ensures said == if answer.Some? then [Line(JsonUpdated)] else []
  {
    said := [];
    if answer.Some? {
      config.jsonMode := answer.value;
      said := [Line(JsonUpdated)];
    }
  }
}
