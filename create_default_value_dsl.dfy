/**
 * `CreateDefaultValueDsl`: the block of `addDefaultValue`, whose calls set the default-value
 * attributes of the `AddDefaultValueChange` it holds.
 *
 * The interesting call is `booleanValue(String?)`, which classifies its text, after lowercasing
 * and trimming, as true, false, absent, or the text of a computed default.
 */
module CreateDefaultValueDsl {
  import opened Wrappers
  import opened Liquibase

  // ---------------------------------------------------------------------------------------------
  // Text normalisation: Kotlin's lowercase() and commons-lang's trimToNull

  /** The lowercase form of a character; only the ASCII letters A-Z change. */
  function LowerChar(c: char): char
  {
    if 'A' <= c <= 'Z' then (c as int + 32) as char else c
  }

  /** `s.lowercase()`, character by character. */
  function Lower(s: string): (r: string)
    ensures |r| == |s|
    ensures forall i :: 0 <= i < |s| ==> r[i] == LowerChar(s[i])
  {
    if s == [] then [] else [LowerChar(s[0])] + Lower(s[1..])
  }

  /** Java's `String.trim` removes every character up to U+0020 at either end. */
  predicate IsTrimmed(c: char)
  {
    c <= ' '
  }

  function TrimStart(s: string): (r: string)
    ensures |r| <= |s| && r == s[|s| - |r|..]
    ensures r != [] ==> !IsTrimmed(r[0])
    ensures forall i :: 0 <= i < |s| - |r| ==> IsTrimmed(s[i])
  {
    if s != [] && IsTrimmed(s[0]) then TrimStart(s[1..]) else s
  }

  function TrimEnd(s: string): (r: string)
    ensures |r| <= |s| && r == s[..|r|]
    ensures r != [] ==> !IsTrimmed(r[|r| - 1])
    ensures forall i :: |r| <= i < |s| ==> IsTrimmed(s[i])
  {
    if s != [] && IsTrimmed(s[|s| - 1]) then TrimEnd(s[..|s| - 1]) else s
  }

  /** `String.trim`. */
  function Trim(s: string): string
  {
    TrimEnd(TrimStart(s))
  }

  /** Whether a string holds nothing but characters that `trim` removes. */
  predicate IsBlank(s: string)
  {
    forall i :: 0 <= i < |s| ==> IsTrimmed(s[i])
  }

  /** `StringUtils.trimToNull`: `null` for `null` and for a string that trims to nothing. */
  function TrimToNull(s: Option<string>): (r: Option<string>)
    ensures r.None? <==> s.None? || IsBlank(s.value)
  {
    if s.None? then None
    else
      var t := Trim(s.value);
      TrimmedEmptyIffBlank(s.value);
      if t == "" then None else Some(t)
  }

  lemma TrimmedEmptyIffBlank(s: string)
    ensures Trim(s) == [] <==> IsBlank(s)
  {
    var t := TrimStart(s);
    if t != [] {
      assert !IsTrimmed(s[|s| - |t|]);
    }
  }

  /** The text `booleanValue(String)` compares: lowercased, then trimmed to `null`. */
  function NormalizedText(value: Option<string>): Option<string>
  {
    TrimToNull(if value.None? then None else Some(Lower(value.value)))
  }

  // ---------------------------------------------------------------------------------------------
  // booleanValue(String)

  /** The four outcomes of `booleanValue(String)`. */
  datatype BooleanText = TrueText | FalseText | NoText | ComputedText(text: string)

  /** How `booleanValue(String)` reads its argument. */
  function ClassifyBooleanText(value: Option<string>): (r: BooleanText)
    ensures r == NoText <==> value.None? || IsBlank(Lower(value.value))
    ensures r.ComputedText? ==> NormalizedText(value) == Some(r.text)
    ensures r == TrueText <==> NormalizedText(value) == Some("true") || NormalizedText(value) == Some("1")
    ensures r == FalseText <==> NormalizedText(value) == Some("false") || NormalizedText(value) == Some("0")
  {
    match NormalizedText(value)
    case Some(v) =>
      if v == "true" || v == "1" then TrueText
      else if v == "false" || v == "0" then FalseText
      else ComputedText(v)
    case None => NoText
  }

  /** The boolean default that an outcome leaves in the change. */
  function BooleanOf(b: BooleanText): Option<bool>
  {
    match b
    case TrueText => Some(true)
    case FalseText => Some(false)
    case _ => None
  }

  lemma LowerIdempotent(s: string)
    ensures Lower(Lower(s)) == Lower(s)
  {
  }

  /** Lowercasing keeps the characters `trim` removes, and only those. */
  lemma LowerKeepsTrimmed(c: char)
    ensures IsTrimmed(LowerChar(c)) <==> IsTrimmed(c)
  {
  }

  lemma LowerAppend(a: string, b: string)
    ensures Lower(a + b) == Lower(a) + Lower(b)
  {
  }

  /** Matching is case-insensitive: arguments that agree after lowercasing are read the same way. */
  lemma CaseInsensitive(a: string, b: string)
    requires Lower(a) == Lower(b)
    ensures ClassifyBooleanText(Some(a)) == ClassifyBooleanText(Some(b))
  {
  }

  /** A string with nothing to trim at either end is its own trimmed form. */
  lemma TrimUnpadded(t: string)
    requires t != [] && !IsTrimmed(t[0]) && !IsTrimmed(t[|t| - 1])
    ensures Trim(t) == t
  {
    assert TrimStart(t) == t;
  }

  /** A string that lowercases to a word with nothing to trim is read as that word. */
  lemma ReadsAs(s: string, word: string)
    requires Lower(s) == word && word != [] && Trim(word) == word
    ensures NormalizedText(Some(s)) == Some(word)
  {
  }

  lemma LowerTrue()
    ensures Lower("TRUE") == "true"
  {
    var lowered := Lower("TRUE");
    assert |lowered| == 4;
    assert lowered[0] == 't' && lowered[1] == 'r' && lowered[2] == 'u' && lowered[3] == 'e';
  }

  lemma LowerFalse()
    ensures Lower("False") == "false"
  {
    var lowered := Lower("False");
    assert |lowered| == 5;
    assert lowered[0] == 'f' && lowered[1] == 'a' && lowered[2] == 'l' && lowered[3] == 's' && lowered[4] == 'e';
  }

  lemma ReadsFalse(s: string)
    requires NormalizedText(Some(s)) == Some("false")
    ensures ClassifyBooleanText(Some(s)) == FalseText
  {
  }

  lemma ReadsTrue(s: string)
    requires NormalizedText(Some(s)) == Some("true")
    ensures ClassifyBooleanText(Some(s)) == TrueText
  {
  }

  /** Example of `CaseInsensitive` with `ClassifyBooleanText`: "TRUE" reads as true, ... */
  lemma UpperCaseTrue()
    ensures ClassifyBooleanText(Some("TRUE")) == TrueText
  {
    LowerTrue();
    TrimUnpadded("true");
    ReadsAs("TRUE", "true");
    ReadsTrue("TRUE");
  }

  /** ... and, as a second example, "False" reads as false. */
  lemma MixedCaseFalse()
    ensures ClassifyBooleanText(Some("False")) == FalseText
  {
    LowerFalse();
    TrimUnpadded("false");
    ReadsAs("False", "false");
    ReadsFalse("False");
  }

  lemma {:induction false} TrimStartPadded(w: string, s: string)
    requires IsBlank(w)
    ensures TrimStart(w + s) == TrimStart(s)
  {
    if w != [] {
      assert (w + s)[1..] == w[1..] + s;
      TrimStartPadded(w[1..], s);
    } else {
      assert w + s == s;
    }
  }

  lemma {:induction false} TrimEndPadded(s: string, w: string)
    requires IsBlank(w)
    ensures TrimEnd(s + w) == TrimEnd(s)
  {
    if w != [] {
      assert (s + w)[..|s + w| - 1] == s + w[..|w| - 1];
      TrimEndPadded(s, w[..|w| - 1]);
    } else {
      assert s + w == s;
    }
  }

  /** Trimming from the start does not reach padding behind a character that stays. */
  lemma {:induction false} TrimStartKeepsTail(s: string, w: string)
    requires !IsBlank(s)
    ensures TrimStart(s + w) == TrimStart(s) + w
  {
    if IsTrimmed(s[0]) {
      assert (s + w)[1..] == s[1..] + w;
      TrimStartKeepsTail(s[1..], w);
    }
  }

  /** Characters that `trim` removes around the argument change nothing: matching ignores surrounding whitespace. */
  lemma TrimPadded(w1: string, s: string, w2: string)
    requires IsBlank(w1) && IsBlank(w2)
    ensures Trim(w1 + s + w2) == Trim(s)
  {
    assert w1 + s + w2 == w1 + (s + w2);
    TrimStartPadded(w1, s + w2);
    if IsBlank(s) {
      assert IsBlank(s + w2);
      TrimmedEmptyIffBlank(s + w2);
      TrimmedEmptyIffBlank(s);
    } else {
      TrimStartKeepsTail(s, w2);
      TrimEndPadded(TrimStart(s), w2);
    }
  }

  lemma {:induction false} LowerBlank(w: string)
    requires IsBlank(w)
    ensures IsBlank(Lower(w)) && Lower(w) == w
  {
    if w != [] {
      LowerBlank(w[1..]);
      assert w == [w[0]] + w[1..];
    }
  }

  /** Matching is whitespace-insensitive: padding the argument does not change how it is read. */
  lemma WhitespaceInsensitive(w1: string, s: string, w2: string)
    requires IsBlank(w1) && IsBlank(w2)
    ensures ClassifyBooleanText(Some(w1 + s + w2)) == ClassifyBooleanText(Some(s))
  {
    LowerPadded(w1, s, w2);
    TrimPadded(w1, Lower(s), w2);
    SameTrimSameReading(w1 + s + w2, s);
  }

  lemma LowerPadded(w1: string, s: string, w2: string)
    requires IsBlank(w1) && IsBlank(w2)
    ensures Lower(w1 + s + w2) == w1 + Lower(s) + w2
  {
    LowerAppend(w1 + s, w2);
    LowerAppend(w1, s);
    LowerBlank(w1);
    LowerBlank(w2);
  }

  /** Arguments whose lowercased, trimmed forms agree are read the same way. */
  lemma SameTrimSameReading(a: string, b: string)
    requires Trim(Lower(a)) == Trim(Lower(b))
    ensures ClassifyBooleanText(Some(a)) == ClassifyBooleanText(Some(b))
  {
    SameTrimSameNormalized(a, b);
    SameNormalizedSameReading(Some(a), Some(b));
  }

  lemma SameTrimSameNormalized(a: string, b: string)
    requires Trim(Lower(a)) == Trim(Lower(b))
    ensures NormalizedText(Some(a)) == NormalizedText(Some(b))
  {
  }

  lemma SameNormalizedSameReading(a: Option<string>, b: Option<string>)
    requires NormalizedText(a) == NormalizedText(b)
    ensures ClassifyBooleanText(a) == ClassifyBooleanText(b)
  {
  }

  /** Every character is already in lowercase. */
  predicate IsLowercase(s: string)
  {
    forall i :: 0 <= i < |s| ==> LowerChar(s[i]) == s[i]
  }

  lemma LowerIsLowercase(s: string)
    ensures IsLowercase(Lower(s))
  {
  }

  lemma TrimKeepsLowercase(s: string)
    requires IsLowercase(s)
    ensures IsLowercase(Trim(s))
  {
    var start := TrimStart(s);
    DropKeepsLowercase(s, |s| - |start|);
    TakeKeepsLowercase(start, |TrimEnd(start)|);
  }

  lemma DropKeepsLowercase(s: string, n: nat)
    requires IsLowercase(s) && n <= |s|
    ensures IsLowercase(s[n..])
  {
    assert forall i :: 0 <= i < |s| - n ==> s[n..][i] == s[n + i];
  }

  lemma TakeKeepsLowercase(s: string, n: nat)
    requires IsLowercase(s) && n <= |s|
    ensures IsLowercase(s[..n])
  {
  }

  /** What `NormalizedText` gives is not empty, has nothing to trim at either end, and is lowercase. */
  lemma NormalizedShape(value: Option<string>)
    requires NormalizedText(value).Some?
    ensures var t := NormalizedText(value).value;
            t != "" && !IsTrimmed(t[0]) && !IsTrimmed(t[|t| - 1]) && Lower(t) == t
  {
    NormalizedIsTrimmed(value);
    LowerIsLowercase(value.value);
    TrimmedLowercaseShape(Lower(value.value));
  }

  lemma NormalizedIsTrimmed(value: Option<string>)
    requires NormalizedText(value).Some?
    ensures NormalizedText(value) == Some(Trim(Lower(value.value))) && Trim(Lower(value.value)) != []
  {
  }

  /** Trimming a lowercase string that does not trim to nothing leaves a lowercase string with unpadded ends. */
  lemma TrimmedLowercaseShape(s: string)
    requires IsLowercase(s) && Trim(s) != []
    ensures !IsTrimmed(Trim(s)[0]) && !IsTrimmed(Trim(s)[|Trim(s)| - 1]) && Lower(Trim(s)) == Trim(s)
  {
    TrimEnds(s);
    TrimKeepsLowercase(s);
    LowercaseFixed(Trim(s));
  }

  /** A string that does not trim to nothing has nothing left to trim at either end. */
  lemma TrimEnds(s: string)
    requires Trim(s) != []
    ensures !IsTrimmed(Trim(s)[0]) && !IsTrimmed(Trim(s)[|Trim(s)| - 1])
  {
    var start := TrimStart(s);
    var t := TrimEnd(start);
    assert t == start[..|t|];
    assert t[0] == start[0];
  }

  lemma LowercaseFixed(s: string)
    requires IsLowercase(s)
    ensures Lower(s) == s
  {
    assert forall i :: 0 <= i < |s| ==> Lower(s)[i] == s[i];
  }

  /**
   * The text of a computed default is lowercased, trimmed, not empty, and none of the four
   * boolean words.
   */
  lemma ComputedTextShape(value: Option<string>)
    requires ClassifyBooleanText(value).ComputedText?
    ensures var t := ClassifyBooleanText(value).text;
            && t != "" && !IsTrimmed(t[0]) && !IsTrimmed(t[|t| - 1])
            && Lower(t) == t
            && t != "true" && t != "1" && t != "false" && t != "0"
  {
    NormalizedShape(value);
  }

  // ---------------------------------------------------------------------------------------------
  // Dates

  /** A `java.time.Instant`: seconds from the epoch and nanoseconds within the second, in Java's range. */
  type JavaInstant = i: InstantValue | ValidInstant(i) witness InstantValue(0, 0)

  datatype InstantValue = InstantValue(epochSecond: int, nano: int)

  predicate ValidInstant(i: InstantValue)
  {
    && -31557014167219200 <= i.epochSecond <= 31556889864403199
    && 0 <= i.nano < 1_000_000_000
  }

  /** A `kotlin.time.Instant`, converted by `toJavaInstant` to the Java instant of the same moment. */
  type KotlinInstant = JavaInstant

  function ToJavaInstant(i: KotlinInstant): JavaInstant
  {
    i
  }

  /** `Instant.toEpochMilli`: whole milliseconds, rounding towards the past. */
  function EpochMilli(i: JavaInstant): (millis: int)
    ensures millis * 1_000_000 <= i.epochSecond * 1_000_000_000 + i.nano < (millis + 1) * 1_000_000
  {
    i.epochSecond * 1000 + i.nano / 1_000_000
  }

  /** Whether `Date.from(i)` succeeds: its milliseconds fit in a `long`. */
  predicate FitsDate(i: JavaInstant)
  {
    -0x8000_0000_0000_0000 <= EpochMilli(i) < 0x8000_0000_0000_0000
  }

  /** A `java.util.Date`, as milliseconds since the epoch. */
  datatype Date = Date(millis: int)

  /** `Date.from(instant)`. */
  function DateFrom(i: JavaInstant): (d: Date)
    requires FitsDate(i)
    ensures d.millis == EpochMilli(i)
  {
    Date(EpochMilli(i))
  }

  /** Instants within the same millisecond give the same `Date`, so sub-millisecond precision is lost. */
  lemma SubMillisecondIgnored(a: JavaInstant, b: JavaInstant)
    requires a.epochSecond == b.epochSecond && a.nano / 1_000_000 == b.nano / 1_000_000
    requires FitsDate(a) && FitsDate(b)
    ensures DateFrom(a) == DateFrom(b)
  {
  }

  /** `ISODateFormat().format(date)`: the text Liquibase writes for a date, `null` for `null`. */
  datatype IsoDateFormat = IsoDateFormat(format: Date -> string)

  function FormatDate(formatter: IsoDateFormat, date: Option<Date>): (r: Option<string>)
    ensures r.None? <==> date.None?
  {
    if date.None? then None else Some(formatter.format(date.value))
  }

  // ---------------------------------------------------------------------------------------------
  // The builder

  class CreateDefaultValueDsl {
    const change: AddDefaultValueChange

    constructor (change: AddDefaultValueChange)
      ensures this.change == change
    {
      this.change := change;
    }

    method StringValue(value: Option<string>)
      modifies change`defaultValue
      ensures change.defaultValue == value
    {
      change.defaultValue := value;
    }

    /** `numericValue(String?)`. */
    method NumericValueText(value: Option<string>)
      modifies change`defaultValueNumeric
      ensures change.defaultValueNumeric == value
    {
      change.defaultValueNumeric := value;
    }

    /** `booleanValue(Boolean?)`. */
    method BooleanValue(value: Option<bool>)
      modifies change`defaultValueBoolean
      ensures change.defaultValueBoolean == value
    {
      change.defaultValueBoolean := value;
    }

    /**
     * `booleanValue(String?)`: "true" and "1" give true, "false" and "0" give false, blank or
     * `null` give `null`; any other text gives `null` and becomes the computed default.
     */
    method BooleanValueText(value: Option<string>)
      modifies change`defaultValueBoolean, change`defaultValueComputed
      ensures change.defaultValueBoolean == BooleanOf(ClassifyBooleanText(value))
      ensures change.defaultValueComputed
              == if ClassifyBooleanText(value).ComputedText?
                 then Some(DatabaseFunction(None, ClassifyBooleanText(value).text))
                 else old(change.defaultValueComputed)
    {
      var v := NormalizedText(value);
      match v {
        case Some(text) =>
          if text == "true" || text == "1" {
            change.defaultValueBoolean := Some(true);
          } else if text == "false" || text == "0" {
            change.defaultValueBoolean := Some(false);
          } else {
            ComputedValue(text);
            change.defaultValueBoolean := None;
          }
        case None =>
          change.defaultValueBoolean := None;
      }
    }

    method ComputedValue(value: string, schema: Option<string> := None)
      modifies change`defaultValueComputed
      ensures change.defaultValueComputed == Some(DatabaseFunction(schema, value))
    {
      change.defaultValueComputed := Some(DatabaseFunction(schema, value));
    }

    method NextSequenceValue(sequenceName: string, sequenceSchema: Option<string> := None)
      modifies change`defaultValueSequenceNext
      ensures change.defaultValueSequenceNext == Some(SequenceNextValueFunction(sequenceSchema, sequenceName))
    {
      change.defaultValueSequenceNext := Some(SequenceNextValueFunction(sequenceSchema, sequenceName));
    }

    /** `dateValue(Date?)`. */
    method DateValue(value: Option<Date>, formatter: IsoDateFormat)
      modifies change`defaultValueDate
      ensures change.defaultValueDate == FormatDate(formatter, value)
    {
      change.defaultValueDate := FormatDate(formatter, value);
    }

    /** `dateValue(String?)`. */
    method DateValueText(value: Option<string>)
      modifies change`defaultValueDate
      ensures change.defaultValueDate == value
    {
      change.defaultValueDate := value;
    }

    /** `dateValue(java.time.Instant?)`: `null` clears the date, any other instant is formatted as a `Date`. */
    method DateValueInstant(value: Option<JavaInstant>, formatter: IsoDateFormat)
      requires value.Some? ==> FitsDate(value.value)
      modifies change`defaultValueDate
      ensures value.None? ==> change.defaultValueDate == None
      ensures value.Some? ==> change.defaultValueDate == Some(formatter.format(DateFrom(value.value)))
    {
      if value.None? {
        change.defaultValueDate := None;
      } else {
        DateValue(Some(DateFrom(value.value)), formatter);
      }
    }

    /** `dateValue(kotlin.time.Instant?)`: the same, through `toJavaInstant`. */
    method DateValueKotlinInstant(value: Option<KotlinInstant>, formatter: IsoDateFormat)
      requires value.Some? ==> FitsDate(ToJavaInstant(value.value))
      modifies change`defaultValueDate
      ensures value.None? ==> change.defaultValueDate == None
      ensures value.Some? ==> change.defaultValueDate == Some(formatter.format(DateFrom(ToJavaInstant(value.value))))
    {
      if value.None? {
        change.defaultValueDate := None;
      } else {
        DateValue(Some(DateFrom(ToJavaInstant(value.value))), formatter);
      }
    }

    /** Runs the statements of a block, in order. */
    method Run(block: seq<DefaultValueCall>)
      requires CallsFit(block)
      modifies change`defaultValue, change`defaultValueNumeric, change`defaultValueBoolean,
               change`defaultValueComputed, change`defaultValueSequenceNext, change`defaultValueDate
      ensures change.Defaults() == ApplyAll(old(change.Defaults()), block)
    {
      for i := 0 to |block|
        invariant change.Defaults() == ApplyAll(old(change.Defaults()), block[..i])
      {
        assert block[..i + 1][..i] == block[..i];
        RunCall(block[i]);
      }
      assert block[..|block|] == block;
    }

    /** Makes one statement of a block. */
    method RunCall(call: DefaultValueCall)
      requires (call.DateValueInstantCall? || call.DateValueKotlinInstantCall?) && call.instant.Some?
               ==> FitsDate(call.instant.value)
      modifies change`defaultValue, change`defaultValueNumeric, change`defaultValueBoolean,
               change`defaultValueComputed, change`defaultValueSequenceNext, change`defaultValueDate
      ensures change.Defaults() == Apply(old(change.Defaults()), call)
    {
      match call
        case StringValueCall(v) => StringValue(v);
        case NumericValueTextCall(v) => NumericValueText(v);
        case BooleanValueCall(v) => BooleanValue(v);
        case BooleanValueTextCall(v) => BooleanValueText(v);
        case ComputedValueCall(v, schema) => ComputedValue(v, schema);
        case NextSequenceValueCall(name, schema) => NextSequenceValue(name, schema);
        case DateValueCall(v, formatter) => DateValue(v, formatter);
        case DateValueTextCall(v) => DateValueText(v);
        case DateValueInstantCall(v, formatter) => DateValueInstant(v, formatter);
        case DateValueKotlinInstantCall(v, formatter) => DateValueKotlinInstant(v, formatter);
    }
  }

  // ---------------------------------------------------------------------------------------------
  // Blocks

  /** One statement of a `CreateDefaultValueDsl` block. */
  datatype DefaultValueCall =
    | StringValueCall(value: Option<string>)
    | NumericValueTextCall(value: Option<string>)
    | BooleanValueCall(b: Option<bool>)
    | BooleanValueTextCall(value: Option<string>)
    | ComputedValueCall(computed: string, schema: Option<string>)
    | NextSequenceValueCall(sequenceName: string, sequenceSchema: Option<string>)
    | DateValueCall(date: Option<Date>, formatter: IsoDateFormat)
    | DateValueTextCall(value: Option<string>)
    | DateValueInstantCall(instant: Option<JavaInstant>, formatter: IsoDateFormat)
    | DateValueKotlinInstantCall(instant: Option<KotlinInstant>, formatter: IsoDateFormat)

  /** Every instant in the block fits into a `Date`. */
  predicate CallsFit(block: seq<DefaultValueCall>)
  {
    forall i :: (0 <= i < |block| && (block[i].DateValueInstantCall? || block[i].DateValueKotlinInstantCall?)
                 && block[i].instant.Some?) ==> FitsDate(block[i].instant.value)
  }

  /** The default-value attributes after one statement. */
  function Apply(d: DefaultValues, call: DefaultValueCall): DefaultValues
    requires (call.DateValueInstantCall? || call.DateValueKotlinInstantCall?) && call.instant.Some?
             ==> FitsDate(call.instant.value)
  {
    match call
    case StringValueCall(v) => d.(defaultValue := v)
    case NumericValueTextCall(v) => d.(defaultValueNumeric := v)
    case BooleanValueCall(v) => d.(defaultValueBoolean := v)
    case BooleanValueTextCall(v) =>
      var c := ClassifyBooleanText(v);
      d.(defaultValueBoolean := BooleanOf(c),
         defaultValueComputed := if c.ComputedText? then Some(DatabaseFunction(None, c.text)) else d.defaultValueComputed)
    case ComputedValueCall(v, schema) => d.(defaultValueComputed := Some(DatabaseFunction(schema, v)))
    case NextSequenceValueCall(name, schema) => d.(defaultValueSequenceNext := Some(SequenceNextValueFunction(schema, name)))
    case DateValueCall(v, formatter) => d.(defaultValueDate := FormatDate(formatter, v))
    case DateValueTextCall(v) => d.(defaultValueDate := v)
    case DateValueInstantCall(v, formatter) =>
      d.(defaultValueDate := if v.None? then None else Some(formatter.format(DateFrom(v.value))))
    case DateValueKotlinInstantCall(v, formatter) =>
      d.(defaultValueDate := if v.None? then None else Some(formatter.format(DateFrom(ToJavaInstant(v.value)))))
  }

  /** The default-value attributes after the statements of `block`, in order. */
  function ApplyAll(d: DefaultValues, block: seq<DefaultValueCall>): DefaultValues
    requires CallsFit(block)
  {
    if block == [] then d else Apply(ApplyAll(d, block[..|block| - 1]), block[|block| - 1])
  }
}
