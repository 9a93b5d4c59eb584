/**
 Timestamps read back (`src/web/fetch/evidence.rs`): the date and the time in a formatted string,
 read as numbers and counted, are the seconds it was made from.
 */
module Timestamps {
  import opened Prelude
  import opened Calendar

  lemma {:induction false} DigitsReadBack(n: nat, width: nat)
    requires n < Pow10(width)
    ensures ReadDecimal(Digits(n, width)) == n && |Digits(n, width)| == width
  {
    if width > 0 {
      DigitsReadBack(n / 10, width - 1);
      assert Digits(n, width)[..width - 1] == Digits(n / 10, width - 1);
    }
  }

  /** Where field `i` starts. */
  function Offset(widths: seq<nat>, i: nat): nat
    requires i <= |widths|
  {
    if i == 0 then 0 else Offset(widths, i - 1) + widths[i - 1] + 1
  }

  lemma {:induction false} OffsetOfRest(widths: seq<nat>, i: nat)
    requires 0 < i <= |widths|
    ensures Offset(widths, i) == widths[0] + 1 + Offset(widths[1..], i - 1)
  {
    if i > 1 {
      OffsetOfRest(widths, i - 1);
    }
  }

  /** Every field stands at its place, in its width, before its mark. */
  lemma {:induction false} FieldStands(fields: seq<nat>, widths: seq<nat>, marks: string, i: nat)
    requires Fit(fields, widths) && |marks| == |widths| && i < |fields|
    ensures var text, at := Stamp(fields, widths, marks), Offset(widths, i);
            && |text| == Offset(widths, |widths|)
            && at + widths[i] < |text| && text[at..at + widths[i]] == Digits(fields[i], widths[i])
            && text[at + widths[i]] == marks[i]
  {
    hide Stamp, Padded, Digits, Offset;
    var first, rest := Digits(fields[0], widths[0]), Stamp(fields[1..], widths[1..], marks[1..]);
    StampUnfolds(fields, widths, marks);
    OffsetOfRest(widths, |widths|);
    NoOffset(widths);
    NoOffset(widths[1..]);
    if i > 0 {
      OffsetOfRest(widths, i);
    }
    if |fields| > 1 {
      FieldStands(fields[1..], widths[1..], marks[1..], if i > 0 then i - 1 else 0);
    }
    FieldInRest(first, marks[0], rest, fields, widths, i);
  }

  lemma {:induction false} NoOffset(widths: seq<nat>)
    ensures Offset(widths, 0) == 0
  {
  }

  lemma {:induction false} StampUnfolds(fields: seq<nat>, widths: seq<nat>, marks: string)
    requires Fit(fields, widths) && |marks| == |widths| && fields != []
    ensures Stamp(fields, widths, marks)
         == Digits(fields[0], widths[0]) + [marks[0]] + Stamp(fields[1..], widths[1..], marks[1..])
    ensures |Digits(fields[0], widths[0])| == widths[0]
    ensures |fields| == 1 ==> Stamp(fields[1..], widths[1..], marks[1..]) == ""
  {
    PaddedIsDigits(fields[0], widths[0]);
    DigitsReadBack(fields[0], widths[0]);
    hide Padded, Digits;
  }

  lemma {:induction false} FieldInRest(
    first: string, mark: char, rest: string, fields: seq<nat>, widths: seq<nat>, i: nat)
    requires |fields| == |widths| && i < |widths| && |first| == widths[0]
    requires i > 0 ==> Offset(widths, i) == widths[0] + 1 + Offset(widths[1..], i - 1)
    requires i > 0 ==> Offset(widths[1..], i - 1) + widths[i] < |rest|
    ensures var text, at := first + [mark] + rest, Offset(widths, i);
            && at + widths[i] < |text|
            && (i == 0 ==> text[at..at + widths[i]] == first && text[at + widths[i]] == mark)
            && (i > 0 ==>
                  var from := Offset(widths[1..], i - 1);
                  && text[at..at + widths[i]] == rest[from..from + widths[i]]
                  && text[at + widths[i]] == rest[from + widths[i]])
  {
  }

  lemma {:induction false} Places()
    ensures Offset(WIDTHS, 0) == 0 && Offset(WIDTHS, 1) == 5 && Offset(WIDTHS, 2) == 8 && Offset(WIDTHS, 3) == 11
    ensures Offset(WIDTHS, 4) == 14 && Offset(WIDTHS, 5) == 17 && Offset(WIDTHS, 6) == 20
  {
  }

  /** The date and the time of a timestamp are those of its second. */
  lemma {:induction false} FieldsTell(secs: u64)
    ensures var f := FieldsOf(secs);
            && IsDate(Date(f[0], f[1], f[2])) && f[3] < 24 && f[4] < 60 && f[5] < 60
            && 86_400 * DaysOf(Date(f[0], f[1], f[2])) + 3600 * f[3] + 60 * f[4] + f[5] == secs as int
  {
    DaysOfInvertsCivil((secs / 86_400) as i64);
    hide Civil, DaysOf;
    ClockTells((secs % 86_400) as int);
  }

  lemma {:induction false} ClockTells(n: nat)
    requires n < 86_400
    ensures n / 3600 < 24 && n % 3600 / 60 < 60 && n % 60 < 60
    ensures 3600 * (n / 3600) + 60 * (n % 3600 / 60) + n % 60 == n
  {
  }

  /** What a text says under the layout `YYYY-MM-DDThh:mm:ssZ`, as seconds from the start of 1970. */
  ghost predicate SaysSecond(text: string, secs: int) {
    && |text| == 20 && text[4] == text[7] == '-' && text[10] == 'T' && text[13] == text[16] == ':' && text[19] == 'Z'
    && var date := Date(ReadDecimal(text[..4]), ReadDecimal(text[5..7]), ReadDecimal(text[8..10]));
       var hour, minute, second := ReadDecimal(text[11..13]), ReadDecimal(text[14..16]), ReadDecimal(text[17..19]);
       && IsDate(date) && 0 <= hour < 24 && 0 <= minute < 60 && 0 <= second < 60
       && secs == 86_400 * DaysOf(date) + 3600 * hour + 60 * minute + second
  }

  /** Up to the year 9999 a timestamp, read by its layout and counted day by day, gives back its second. */
  lemma {:induction false} TimestampsReadBack(secs: u64)
    requires FieldsOf(secs)[0] <= 9999
    ensures SaysSecond(FormatTimestamp(secs), secs as int)
  {
    hide FieldsOf, Stamp, Digits, Offset, DaysOf;
    var f, text := FieldsOf(secs), FormatTimestamp(secs);
    FieldsFit(secs);
    Places();
    FieldsTell(secs);
    forall i: nat | i < 6
      ensures |text| == Offset(WIDTHS, 6) && Offset(WIDTHS, i) + WIDTHS[i] < |text|
      ensures ReadDecimal(text[Offset(WIDTHS, i)..Offset(WIDTHS, i) + WIDTHS[i]]) == f[i]
      ensures text[Offset(WIDTHS, i) + WIDTHS[i]] == MARKS[i]
    {
      FieldStands(f, WIDTHS, MARKS, i);
      DigitsReadBack(f[i], WIDTHS[i]);
    }
    assert text[..4] == text[Offset(WIDTHS, 0)..Offset(WIDTHS, 0) + WIDTHS[0]];
    assert text[5..7] == text[Offset(WIDTHS, 1)..Offset(WIDTHS, 1) + WIDTHS[1]];
    assert text[8..10] == text[Offset(WIDTHS, 2)..Offset(WIDTHS, 2) + WIDTHS[2]];
    assert text[11..13] == text[Offset(WIDTHS, 3)..Offset(WIDTHS, 3) + WIDTHS[3]];
    assert text[14..16] == text[Offset(WIDTHS, 4)..Offset(WIDTHS, 4) + WIDTHS[4]];
    assert text[17..19] == text[Offset(WIDTHS, 5)..Offset(WIDTHS, 5) + WIDTHS[5]];
    hide ReadDecimal, FormatTimestamp;
  }
}
