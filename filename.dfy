/**
 * How a source workbook's file name is read (`readFileAndStoreData`):
 * `<recipient GSTIN>_<month><year>_<anything>.xlsx`.
 */
module FileName {
  import opened Wrappers
  import opened Strings

  /** What the name yields; `None` for a number stands for `NaN`. */
  datatype Decoded = Decoded(recipient: string, month: Option<int>, year: Option<int>)

  /** The year is the last four characters of the second segment. */
  const YearWidth: nat := 4

  /** `name.split('_').filter((x) => !!x)`. */
  function Segments(name: string): seq<string>
  {
    DropEmpty(Split(name, '_'))
  }

  /**
   * The recipient, month and year of a file.  `None` when the name has fewer
   * than two non-empty segments (`fileParts[1]` is then undefined and the
   * source throws).  A second segment of at most four characters does not
   * throw: its month is `parseInt("")`, i.e. `NaN`.
   */
  function Decode(name: string): Option<Decoded>
  {
    var parts := Segments(name);
    if |parts| < 2 then None
    else
      var stamp := parts[1];
      Some(Decoded(parts[0], ParseInt(DropLastChars(stamp, YearWidth)), ParseInt(LastChars(stamp, YearWidth))))
  }

  /**
   * A name decodes exactly when it has two non-empty segments, and the
   * recipient it yields is a non-empty string without `_`.
   */
  lemma DecodeDefined(name: string)
    ensures Decode(name).Some? <==> |Segments(name)| >= 2
    ensures Decode(name).Some? ==> Decode(name).value.recipient != [] && '_' !in Decode(name).value.recipient
  {
    var parts := Segments(name);
    if |parts| >= 2 {
      SegmentsHaveNoSeparator(name, parts[0]);
    }
  }

  lemma SegmentsHaveNoSeparator(name: string, p: string)
    requires p in Segments(name)
    ensures '_' !in p && p != []
  {
    SplitPiecesHaveNoSeparator(name, '_', p);
  }

  lemma {:induction false} SplitPiecesHaveNoSeparator(s: string, sep: char, p: string)
    requires p in Split(s, sep)
    ensures sep !in p
  {
    if s != [] {
      var rest := Split(s[1..], sep);
      if s[0] == sep {
        if p != [] { SplitPiecesHaveNoSeparator(s[1..], sep, p); }
      } else if p == [s[0]] + rest[0] {
        SplitPiecesHaveNoSeparator(s[1..], sep, rest[0]);
      } else {
        assert p in rest[1..];
        SplitPiecesHaveNoSeparator(s[1..], sep, p);
      }
    }
  }

  /**
   * A name that follows the convention decodes to its parts: a recipient
   * without `_`, a digit stamp whose last four digits are the year and whose
   * leading digits (if any) are the month, then anything at all.
   */
  lemma DecodeConvention(recipient: string, month: string, year: string, rest: string)
    requires recipient != [] && '_' !in recipient
    requires AllDigits(month) && AllDigits(year) && |year| == YearWidth
    ensures Decode(recipient + "_" + (month + year) + "_" + rest)
         == Some(Decoded(recipient, if month == [] then None else Some(DigitsValue(month) as int),
                         Some(DigitsValue(year) as int)))
  {
    var stamp := month + year;
    assert '_' !in stamp by {
      forall c | c in stamp ensures c != '_' {
        if c in month { assert IsDigit(c); } else { assert c in year && IsDigit(c); }
      }
    }
    assert stamp != [];
    var name := recipient + "_" + stamp + "_" + rest;
    SplitAtSeparator(recipient, '_', stamp + "_" + rest);
    assert name == recipient + ['_'] + (stamp + "_" + rest);
    SplitAtSeparator(stamp, '_', rest);
    assert stamp + "_" + rest == stamp + ['_'] + rest;
    var parts := Split(name, '_');
    assert parts == [recipient] + ([stamp] + Split(rest, '_'));
    assert DropEmpty(parts) == [recipient] + DropEmpty(parts[1..]);
    assert parts[1..] == [stamp] + Split(rest, '_');
    assert DropEmpty(parts[1..]) == [stamp] + DropEmpty(Split(rest, '_'));
    assert LastChars(stamp, YearWidth) == year;
    assert DropLastChars(stamp, YearWidth) == month;
    ParseIntOfDigits(year);
    if month == [] {
      assert ParseInt([]) == None;
    } else {
      ParseIntOfDigits(month);
    }
  }

  lemma DigitFacts()
    ensures AllDigits("1") && AllDigits("12") && AllDigits("2023")
    ensures DigitsValue("1") == 1 && DigitsValue("12") == 12 && DigitsValue("2023") == 2023
  {
    assert "12"[..1] == "1";
    assert "2023"[..3] == "202" && "202"[..2] == "20" && "20"[..1] == "2" && "2"[..0] == "";
  }

  lemma TwoDigitName(name: string)
    requires name == "R_122023_x.xlsx"
    ensures name == "R" + "_" + ("12" + "2023") + "_" + "x.xlsx"
  {
  }

  lemma OneDigitName(name: string)
    requires name == "R_12023_x.xlsx"
    ensures name == "R" + "_" + ("1" + "2023") + "_" + "x.xlsx"
  {
  }

  /** A two-digit month. */
  lemma DecodeTwoDigitMonth(name: string)
    requires name == "R_122023_x.xlsx"
    ensures Decode(name) == Some(Decoded("R", Some(12), Some(2023)))
  {
    DigitFacts();
    TwoDigitName(name);
    DecodeConvention("R", "12", "2023", "x.xlsx");
  }

  /** A one-digit month: the digits before the last four are the month. */
  lemma DecodeOneDigitMonth(name: string)
    requires name == "R_12023_x.xlsx"
    ensures Decode(name) == Some(Decoded("R", Some(1), Some(2023)))
  {
    DigitFacts();
    OneDigitName(name);
    DecodeConvention("R", "1", "2023", "x.xlsx");
  }

  /**
   * A second segment of at most four characters is not an error: the year is
   * read from all of it and the month is `NaN`.
   */
  lemma ShortStampHasNoMonth(name: string)
    requires |Segments(name)| >= 2 && |Segments(name)[1]| <= YearWidth
    ensures Decode(name).Some? && Decode(name).value.month == None
    ensures Decode(name).value.year == ParseInt(Segments(name)[1])
  {
    var stamp := Segments(name)[1];
    if |stamp| == YearWidth {
      assert stamp[|stamp| - YearWidth..] == stamp;
    }
    assert DropLastChars(stamp, YearWidth) == [];
    assert ParseInt([]) == None;
  }

  /** A name without any `_` has one segment at most and cannot be decoded. */
  lemma NoSeparatorFails(name: string)
    requires '_' !in name
    ensures Decode(name) == None
  {
    SplitWithoutSeparator(name, '_');
  }
}
