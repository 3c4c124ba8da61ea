/**
 * Per-column coercion of an incoming value before it is stored: a date
 * column with a pattern accepts a date as is and parses text by the
 * pattern; every other column stores the value unchanged.
 */
module Coercion {
  import opened Wrappers
  import opened Schemas
  import opened Dates

  datatype CoercionError =
    | UnparseableDate(text: string, pattern: string)  // the text does not match the pattern
    | NotADate(value: Value)                          // neither a date nor text for a date column

  /** A column whose Talend type is date and which declares a pattern. */
  predicate IsDatePatternField(f: Field)
  {
    f.talendType == Some(TalendDate) && f.pattern.Some?
  }

  /** The value stored for v in column f, or why it cannot be stored. */
  function Coerce(f: Field, v: Value): (r: Result<Value, CoercionError>)
    ensures !IsDatePatternField(f) ==> r == Ok(v)
    ensures v.DateVal? || v.Null? ==> r == Ok(v)
    ensures r.Ok? && IsDatePatternField(f) ==> r.value.Null? || r.value.DateVal?
    ensures r.Ok? && v.StringVal? && IsDatePatternField(f) ==> r.value.DateVal? && r.value.millis % 1000 == 0
    ensures r.Err? ==> IsDatePatternField(f) && (v.StringVal? || v.IntVal? || v.BoolVal?)
  {
    if !IsDatePatternField(f) then Ok(v)
    else match v
      case Null => Ok(v)
      case DateVal(_) => Ok(v)
      case StringVal(text) =>
        (match ParseDateByPattern(text, f.pattern.value)
         case Some(ms) => Ok(DateVal(ms))
         case None => Err(UnparseableDate(text, f.pattern.value)))
      case _ => Err(NotADate(v))
  }

  /**
   * Text that starts with a valid `yyyy-MM-dd'T'HH:mm:ss` timestamp becomes
   * that timestamp's UTC instant, whatever follows it in the text.
   */
  lemma CoerceTimestampText(f: Field, d: DateTime, tail: string)
    requires IsDatePatternField(f) && TimestampPattern <= f.pattern.value
    requires ValidDateTime(d) && d.year < 10000
    ensures Coerce(f, StringVal(FormatTimestamp(d) + tail)) == Ok(DateVal(EpochMillis(d)))
  {
    ParseFormatTimestamp(d, tail);
  }

  /**
   * Conversely, text accepted for a date column is a canonical timestamp
   * followed by anything, and the stored instant is that timestamp's.
   */
  lemma CoercedTextIsTimestamp(f: Field, text: string, ms: int)
    requires IsDatePatternField(f) && Coerce(f, StringVal(text)) == Ok(DateVal(ms))
    ensures TimestampPattern <= f.pattern.value
    ensures ParseTimestamp(text).Some?
    ensures text[..19] == FormatTimestamp(ParseTimestamp(text).value)
    ensures ms == EpochMillis(ParseTimestamp(text).value)
  {
    ParseTimestampCanonical(text, ParseTimestamp(text).value);
  }

  /**
   * A dynamic column carries no pattern, so even one declared with the date
   * tag stores every incoming value as given.
   */
  lemma DynamicColumnStoresAsGiven(n: string, t: TalendType, v: Value)
    ensures Coerce(DynamicColumnField(n, t), v) == Ok(v)
  {
  }
}
