/**
 * The comma-separated shape of batterylogd's log lines, and the reading of a
 * line back into its fields that a consumer splitting on ',' performs.
 */
module LogFormat {

  const Separator: char := ','

  /** Splits `s` at every `sep`; a string without separators is one field. */
  function Split(s: string, sep: char): (r: seq<string>)
    ensures |r| >= 1
    decreases |s|
  {
    if s == [] then [[]]
    else if s[0] == sep then [[]] + Split(s[1..], sep)
    else
      var rest := Split(s[1..], sep);
      [[s[0]] + rest[0]] + rest[1..]
  }

  /** Puts `sep` between consecutive fields. */
  function Join(fields: seq<string>, sep: char): string
    requires |fields| >= 1
    decreases |fields|
  {
    if |fields| == 1 then fields[0] else fields[0] + [sep] + Join(fields[1..], sep)
  }

  /** Number of occurrences of `c` in `s`. */
  function Count(s: string, c: char): nat
    decreases |s|
  {
    if s == [] then 0 else (if s[0] == c then 1 else 0) + Count(s[1..], c)
  }

  predicate FreeOf(fields: seq<string>, sep: char)
  {
    forall i :: 0 <= i < |fields| ==> sep !in fields[i]
  }

  /**
   * The value part of a battery line: every value followed by a separator, in
   * order, as the loop of `Battery::build_log_string` appends them.
   */
  function Terminated(values: seq<string>): string
    decreases |values|
  {
    if values == [] then ""
    else Terminated(values[..|values| - 1]) + values[|values| - 1] + [Separator]
  }

  /** A battery line: name, timestamp and every value, each followed by ','. */
  function LogLine(name: string, stamp: string, values: seq<string>): string
  {
    name + [Separator] + stamp + [Separator] + Terminated(values)
  }

  /** The backlight part of a line: brightness, ',' and the maximum brightness. */
  function BacklightFields(brightness: string, maxBrightness: string): string
  {
    brightness + [Separator] + maxBrightness
  }

  /** The number of fields a split yields is one more than the number of separators. */
  lemma {:induction false} SplitCount(s: string, sep: char)
    ensures |Split(s, sep)| == Count(s, sep) + 1
    decreases |s|
  {
    if s != [] {
      SplitCount(s[1..], sep);
    }
  }

  lemma {:induction false} SplitFieldWithoutSeparator(a: string, sep: char)
    requires sep !in a
    ensures Split(a, sep) == [a]
    decreases |a|
  {
    if a != [] {
      assert a[0] in a;
      assert forall x :: x in a[1..] ==> x in a;
      SplitFieldWithoutSeparator(a[1..], sep);
      assert [a[0]] + a[1..] == a;
    }
  }

  /** Splitting stops at the first separator: the field before it comes out whole. */
  lemma {:induction false} SplitFirstField(a: string, sep: char, rest: string)
    requires sep !in a
    ensures Split(a + [sep] + rest, sep) == [a] + Split(rest, sep)
    decreases |a|
  {
    var s := a + [sep] + rest;
    if a == [] {
      assert s[0] == sep && s[1..] == rest;
    } else {
      assert a[0] in a;
      assert forall x :: x in a[1..] ==> x in a;
      assert s[0] == a[0] && s[1..] == a[1..] + [sep] + rest;
      SplitFirstField(a[1..], sep, rest);
      assert [a[0]] + a[1..] == a;
    }
  }

  /** Splitting a joined line gives back exactly its fields when none holds the separator. */
  lemma {:induction false} SplitJoin(fields: seq<string>, sep: char)
    requires |fields| >= 1 && FreeOf(fields, sep)
    ensures Split(Join(fields, sep), sep) == fields
    decreases |fields|
  {
    if |fields| == 1 {
      SplitFieldWithoutSeparator(fields[0], sep);
    } else {
      SplitFirstField(fields[0], sep, Join(fields[1..], sep));
      assert FreeOf(fields[1..], sep) by {
        forall i | 0 <= i < |fields[1..]| ensures sep !in fields[1..][i] {
          assert fields[1..][i] == fields[i + 1];
        }
      }
      SplitJoin(fields[1..], sep);
    }
  }

  /** Joining one more field appends a separator and that field. */
  lemma {:induction false} JoinSnoc(fields: seq<string>, last: string, sep: char)
    requires |fields| >= 1
    ensures Join(fields + [last], sep) == Join(fields, sep) + [sep] + last
    decreases |fields|
  {
    if |fields| > 1 {
      assert (fields + [last])[1..] == fields[1..] + [last];
      JoinSnoc(fields[1..], last, sep);
    }
  }

  /** Terminated values are the values joined after a leading group and closed by an empty field. */
  lemma {:induction false} JoinTerminated(lead: seq<string>, values: seq<string>)
    requires |lead| >= 1
    ensures Join(lead + values + [""], Separator) == Join(lead, Separator) + [Separator] + Terminated(values)
    decreases |values|
  {
    if values == [] {
      assert lead + values + [""] == lead + [""];
      JoinSnoc(lead, "", Separator);
    } else {
      var init := values[..|values| - 1];
      var last := values[|values| - 1];
      assert values == init + [last];
      JoinTerminated(lead, init);
      JoinSnoc(lead + init, "", Separator);
      JoinSnoc(lead + init, last, Separator);
      assert lead + values + [""] == (lead + init + [last]) + [""];
      JoinSnoc(lead + init + [last], "", Separator);
      assert lead + init + [last] == lead + values;
      var j := Join(lead, Separator) + [Separator];
      calc {
        Join(lead + values + [""], Separator);
        Join(lead + init + [last], Separator) + [Separator];
        Join(lead + init, Separator) + [Separator] + last + [Separator];
        (j + Terminated(init)) + last + [Separator];
        j + (Terminated(init) + last + [Separator]);
        j + Terminated(values);
      }
    }
  }

  /**
   * A battery line is the join of name, timestamp, the values and one empty
   * field: the trailing ',' that `build_log_string` leaves.
   */
  lemma LogLineIsJoin(name: string, stamp: string, values: seq<string>)
    ensures LogLine(name, stamp, values) == Join([name, stamp] + values + [""], Separator)
  {
    JoinTerminated([name, stamp], values);
    assert Join([name, stamp], Separator) == name + [Separator] + stamp;
  }

  /** A battery line with the backlight fields appended joins those two values in place of the empty field. */
  lemma LogLineWithBacklightIsJoin(name: string, stamp: string, values: seq<string>, b: string, mb: string)
    ensures LogLine(name, stamp, values) + BacklightFields(b, mb)
         == Join([name, stamp] + values + [b, mb], Separator)
  {
    var lead := [name, stamp] + values;
    LogLineIsJoin(name, stamp, values);
    JoinSnoc(lead, "", Separator);
    JoinSnoc(lead, b, Separator);
    JoinSnoc(lead + [b], mb, Separator);
    assert lead + [b] + [mb] == lead + [b, mb];
    assert lead + [""] == [name, stamp] + values + [""];
  }

  /**
   * Reading a battery line back: when no field contains ',', splitting it
   * yields name, timestamp, the values in order and a final empty field, so the
   * line holds |values| + 2 separators and ends with ','.
   */
  lemma LogLineFields(name: string, stamp: string, values: seq<string>)
    requires FreeOf([name, stamp] + values, Separator)
    ensures Split(LogLine(name, stamp, values), Separator) == [name, stamp] + values + [""]
    ensures Count(LogLine(name, stamp, values), Separator) == |values| + 2
    ensures LogLine(name, stamp, values)[|LogLine(name, stamp, values)| - 1] == Separator
  {
    var fields := [name, stamp] + values + [""];
    assert FreeOf(fields, Separator) by {
      forall i | 0 <= i < |fields| ensures Separator !in fields[i] {
        if i < |fields| - 1 {
          assert fields[i] == ([name, stamp] + values)[i];
        }
      }
    }
    LogLineIsJoin(name, stamp, values);
    SplitJoin(fields, Separator);
    SplitCount(LogLine(name, stamp, values), Separator);
    var line := LogLine(name, stamp, values);
    if values == [] {
      assert line == name + [Separator] + stamp + [Separator];
    } else {
      var init := values[..|values| - 1];
      assert line == (name + [Separator] + stamp + [Separator] + Terminated(init) + values[|values| - 1]) + [Separator];
    }
  }

  /** The same for a battery line carrying the backlight fields. */
  lemma LogLineWithBacklightFields(name: string, stamp: string, values: seq<string>, b: string, mb: string)
    requires FreeOf([name, stamp] + values + [b, mb], Separator)
    ensures Split(LogLine(name, stamp, values) + BacklightFields(b, mb), Separator) == [name, stamp] + values + [b, mb]
    ensures Count(LogLine(name, stamp, values) + BacklightFields(b, mb), Separator) == |values| + 3
  {
    LogLineWithBacklightIsJoin(name, stamp, values, b, mb);
    SplitJoin([name, stamp] + values + [b, mb], Separator);
    SplitCount(LogLine(name, stamp, values) + BacklightFields(b, mb), Separator);
  }

  /** The backlight string splits into exactly its two values. */
  lemma BacklightFieldsSplit(b: string, mb: string)
    requires Separator !in b && Separator !in mb
    ensures Split(BacklightFields(b, mb), Separator) == [b, mb]
  {
    assert Join([b, mb], Separator) == BacklightFields(b, mb);
    SplitJoin([b, mb], Separator);
  }
}
