/** The header flag bits of a Writer and their textual rendering
    (writer.go: Flags, its constants, allFlags and Flags.String). */
module Flags {
  import opened Numbers
  import opened Itoa

  /** Flags is a Go `uint`. */
  type Flags = bv64

  const ShowDate: Flags := 1
  const ShowTime: Flags := 2
  const Microseconds: Flags := 4
  const ShowFile: Flags := 8
  const ShortFile: Flags := 16
  const UTC: Flags := 32
  const ShowLevel: Flags := 64

  const StdFlags: Flags := ShowDate | ShowTime | ShowLevel
  const AllFlags: Flags := ShowDate | ShowTime | Microseconds | ShowFile | ShortFile | UTC | ShowLevel

  /** One step of Flags.String: when `present`, add `name`, after a '|' if
      something is already there. */
  function AddName(buf: string, present: bool, name: string): string {
    if !present then buf
    else if |buf| > 0 then buf + "|" + name
    else buf + name
  }

  /** The names Flags.String emits for the known bits, in declaration order
      (note that the Microseconds bit is named "ShowMicroseconds"). */
  function KnownNamesText(f: Flags): string {
    NamesChain(f & ShowDate != 0, f & ShowTime != 0, f & Microseconds != 0, f & ShowFile != 0,
               f & ShortFile != 0, f & UTC != 0, f & ShowLevel != 0)
  }

  /** The seven conditional appends of Flags.String, one per known bit. */
  function NamesChain(date: bool, time: bool, micro: bool, file: bool, short: bool, utc: bool, level: bool): string {
    var b := AddName("", date, "ShowDate");
    var b := AddName(b, time, "ShowTime");
    var b := AddName(b, micro, "ShowMicroseconds");
    var b := AddName(b, file, "ShowFile");
    var b := AddName(b, short, "ShortFile");
    var b := AddName(b, utc, "UTC");
    AddName(b, level, "ShowLevel")
  }

  /** Flags.String as written: the trailing number is `f & allFlags`. */
  function FlagsStringAsWritten(f: Flags): string {
    if f == 0 then "0"
    else
      var others := f & AllFlags;
      AddName(KnownNamesText(f), others != 0, IntText(others as int, -1))
  }

  /** Flags.String as intended: the trailing number is the value of the
      bits outside allFlags, in unsigned decimal. */
  function FlagsString(f: Flags): string {
    if f == 0 then "0"
    else
      var others := f & !AllFlags;
      AddName(KnownNamesText(f), others != 0, Digits(others as int))
  }

  // ---- The reference rendering: a list of names joined by '|'.

  /** The names of the known bits set in f, in declaration order. */
  function KnownNames(f: Flags): (r: seq<string>)
    ensures |r| <= 7
  {
    NamesList(f & ShowDate != 0, f & ShowTime != 0, f & Microseconds != 0, f & ShowFile != 0,
              f & ShortFile != 0, f & UTC != 0, f & ShowLevel != 0)
  }

  function AddIf(xs: seq<string>, present: bool, name: string): (r: seq<string>)
    ensures |r| <= |xs| + 1
  {
    xs + if present then [name] else []
  }

  function NamesList(date: bool, time: bool, micro: bool, file: bool, short: bool, utc: bool, level: bool): seq<string> {
    var xs := AddIf([], date, "ShowDate");
    var xs := AddIf(xs, time, "ShowTime");
    var xs := AddIf(xs, micro, "ShowMicroseconds");
    var xs := AddIf(xs, file, "ShowFile");
    var xs := AddIf(xs, short, "ShortFile");
    var xs := AddIf(xs, utc, "UTC");
    AddIf(xs, level, "ShowLevel")
  }

  /** `xs` joined with '|' between consecutive elements. */
  function JoinBar(xs: seq<string>): string {
    if |xs| == 0 then ""
    else if |xs| == 1 then xs[0]
    else JoinBar(xs[..|xs| - 1]) + "|" + xs[|xs| - 1]
  }

  /** Every part is non-empty and holds no '|'. */
  predicate Plain(xs: seq<string>) {
    forall k :: 0 <= k < |xs| ==> Bare(xs[k])
  }

  /** A single part: non-empty and free of '|'. */
  predicate Bare(s: string) {
    |s| > 0 && forall j :: 0 <= j < |s| ==> s[j] != '|'
  }

  lemma JoinBarEmpty(xs: seq<string>)
    requires Plain(xs)
    ensures |JoinBar(xs)| == 0 <==> |xs| == 0
  {
  }

  /** One AddName step extends the joined list by one name. */
  lemma AddNameJoins(xs: seq<string>, present: bool, name: string)
    requires Plain(xs) && Bare(name)
    ensures AddName(JoinBar(xs), present, name) == JoinBar(AddIf(xs, present, name))
  {
    if present {
      var ys := xs + [name];
      assert ys[..|ys| - 1] == xs;
      if |xs| > 0 {
        JoinBarEmpty(xs);
      }
    } else {
      assert AddIf(xs, present, name) == xs;
    }
  }

  lemma AddIfPlain(xs: seq<string>, present: bool, name: string)
    requires Plain(xs) && Bare(name)
    ensures Plain(AddIf(xs, present, name))
  {
  }

  /** The chain of conditional appends equals the reference join. */
  lemma {:induction false} NamesChainJoins(date: bool, time: bool, micro: bool, file: bool, short: bool, utc: bool, level: bool)
    ensures NamesChain(date, time, micro, file, short, utc, level) == JoinBar(NamesList(date, time, micro, file, short, utc, level))
    ensures Plain(NamesList(date, time, micro, file, short, utc, level))
  {
    var s1 := AddIf([], date, "ShowDate");
    var s2 := AddIf(s1, time, "ShowTime");
    var s3 := AddIf(s2, micro, "ShowMicroseconds");
    var s4 := AddIf(s3, file, "ShowFile");
    var s5 := AddIf(s4, short, "ShortFile");
    var s6 := AddIf(s5, utc, "UTC");
    AddNameJoins([], date, "ShowDate");
    AddIfPlain([], date, "ShowDate");
    AddNameJoins(s1, time, "ShowTime");
    AddIfPlain(s1, time, "ShowTime");
    AddNameJoins(s2, micro, "ShowMicroseconds");
    AddIfPlain(s2, micro, "ShowMicroseconds");
    AddNameJoins(s3, file, "ShowFile");
    AddIfPlain(s3, file, "ShowFile");
    AddNameJoins(s4, short, "ShortFile");
    AddIfPlain(s4, short, "ShortFile");
    AddNameJoins(s5, utc, "UTC");
    AddIfPlain(s5, utc, "UTC");
    AddNameJoins(s6, level, "ShowLevel");
    AddIfPlain(s6, level, "ShowLevel");
  }

  lemma KnownNamesTextJoins(f: Flags)
    ensures KnownNamesText(f) == JoinBar(KnownNames(f))
    ensures Plain(KnownNames(f))
  {
    NamesChainJoins(f & ShowDate != 0, f & ShowTime != 0, f & Microseconds != 0, f & ShowFile != 0,
                    f & ShortFile != 0, f & UTC != 0, f & ShowLevel != 0);
  }

  /** Some known name is listed exactly when f has a bit of allFlags. */
  lemma KnownNamesPresent(f: Flags)
    ensures |KnownNames(f)| > 0 <==> f & AllFlags != 0
  {
    assert f & AllFlags != 0 <==>
      (f & ShowDate != 0 || f & ShowTime != 0 || f & Microseconds != 0 || f & ShowFile != 0 ||
       f & ShortFile != 0 || f & UTC != 0 || f & ShowLevel != 0);
  }

  /** Flags.String as written is the '|'-join of the set known names, followed
      by the decimal of f & allFlags exactly when some known bit is set: so
      bits outside allFlags never show, and a value with only such bits
      renders as the empty string. */
  lemma FlagsStringAsWrittenShape(f: Flags)
    requires f != 0
    ensures var others := f & AllFlags;
      FlagsStringAsWritten(f) == JoinBar(AddIf(KnownNames(f), others != 0, Digits(others as int)))
    ensures f & AllFlags == 0 ==> FlagsStringAsWritten(f) == ""
  {
    var others := f & AllFlags;
    KnownNamesTextJoins(f);
    IntTextMeaning(others as int, -1);
    DigitsPlain(others as int);
    AddNameJoins(KnownNames(f), others != 0, Digits(others as int));
    KnownNamesPresent(f);
  }

  /** Every non-zero value has a known or an unknown bit. */
  lemma SplitBits(f: Flags)
    requires f != 0
    ensures f & AllFlags != 0 || f & !AllFlags != 0
  {
  }

  /** Flags.String as intended: "0" for no bits; otherwise the '|'-join of the
      set known names, then the unsigned decimal of the unknown bits if any. */
  lemma FlagsStringShape(f: Flags)
    requires f != 0
    ensures var others := f & !AllFlags;
      FlagsString(f) == JoinBar(AddIf(KnownNames(f), others != 0, Digits(others as int)))
  {
    var others := f & !AllFlags;
    KnownNamesTextJoins(f);
    DigitsPlain(others as int);
    AddNameJoins(KnownNames(f), others != 0, Digits(others as int));
  }

  /** Joining plain names, at least one of them, gives a non-empty text that
      neither starts nor ends with '|'. */
  lemma JoinedParts(xs: seq<string>, present: bool, tail: string)
    requires Plain(xs) && Bare(tail)
    requires |xs| > 0 || present
    ensures var s := JoinBar(AddIf(xs, present, tail)); |s| > 0 && s[0] != '|' && s[|s| - 1] != '|'
  {
    var ys := AddIf(xs, present, tail);
    assert Plain(ys);
    JoinBarEnds(ys);
  }

  lemma DigitsPlain(n: nat)
    ensures Bare(Digits(n))
    ensures forall j :: 0 <= j < |Digits(n)| ==> Digits(n)[j] != '|'
  {
    var d := Digits(n);
    assert forall j :: 0 <= j < |d| ==> IsDigit(d[j]);
  }

  /** The joined text of plain names neither starts nor ends with '|'. */
  lemma JoinBarEnds(xs: seq<string>)
    requires Plain(xs) && |xs| > 0
    ensures var s := JoinBar(xs); |s| > 0 && s[0] != '|' && s[|s| - 1] != '|'
  {
    if |xs| > 1 {
      JoinBarEnds(xs[..|xs| - 1]);
    }
  }

  /** One more conditional name after a plain join leaves no stray '|' at
      either end, provided something is listed. */
  lemma AddNameEnds(xs: seq<string>, present: bool, tail: string)
    requires Plain(xs) && Bare(tail)
    requires |xs| > 0 || present
    ensures var s := AddName(JoinBar(xs), present, tail); |s| > 0 && s[0] != '|' && s[|s| - 1] != '|'
  {
    AddNameJoins(xs, present, tail);
    JoinedParts(xs, present, tail);
  }

  /** The rendering as written never starts or ends with '|'. */
  lemma FlagsStringAsWrittenNoStrayBar(f: Flags)
    requires f != 0
    ensures var s := FlagsStringAsWritten(f); |s| > 0 ==> s[0] != '|' && s[|s| - 1] != '|'
  {
    var known := f & AllFlags;
    var present := known != 0;
    var xs := KnownNames(f);
    var tail := IntText(known as int, -1);
    assert Plain(xs) && Bare(tail) && KnownNamesText(f) == JoinBar(xs) by {
      KnownNamesTextJoins(f);
      IntTextMeaning(known as int, -1);
      DigitsPlain(known as int);
    }
    assert FlagsStringAsWritten(f) == AddName(JoinBar(xs), present, tail);
    if |xs| > 0 || present {
      AddNameEnds(xs, present, tail);
    } else {
      assert AddName(JoinBar(xs), present, tail) == "";
    }
  }

  /** The intended rendering of a non-zero value is never empty and never
      starts or ends with '|'. */
  lemma FlagsStringNoStrayBar(f: Flags)
    requires f != 0
    ensures var s := FlagsString(f); |s| > 0 && s[0] != '|' && s[|s| - 1] != '|'
  {
    var others := f & !AllFlags;
    var present := others != 0;
    var xs := KnownNames(f);
    var tail := Digits(others as int);
    assert Plain(xs) && Bare(tail) && KnownNamesText(f) == JoinBar(xs) by {
      KnownNamesTextJoins(f);
      DigitsPlain(others as int);
    }
    assert |xs| > 0 || present by {
      SplitBits(f);
      KnownNamesPresent(f);
    }
    assert FlagsString(f) == AddName(JoinBar(xs), present, tail);
    AddNameEnds(xs, present, tail);
  }

  /** As written, ShowDate|ShowTime renders with a spurious "|3", and a bit
      outside allFlags vanishes; the intended rendering lists the names only
      and shows unknown bits as a number. */
  lemma FlagsStringAsWrittenExamples()
    ensures FlagsStringAsWritten(ShowDate | ShowTime) == "ShowDate|ShowTime|3"
    ensures FlagsString(ShowDate | ShowTime) == "ShowDate|ShowTime"
    ensures FlagsStringAsWritten(128) == ""
    ensures FlagsString(128) == "128"
  {
    var f: Flags := 3;
    assert KnownNamesText(f) == NamesChain(true, true, false, false, false, false, false) == "ShowDate|ShowTime";
    assert f & AllFlags == 3 && f & !AllFlags == 0;
    assert IntText(3, -1) == "3";
    var g: Flags := 128;
    assert KnownNamesText(g) == NamesChain(false, false, false, false, false, false, false) == "";
    assert g & AllFlags == 0 && g & !AllFlags == 128;
    assert Digits(128) == Digits(12) + "8" == "128";
  }
}
