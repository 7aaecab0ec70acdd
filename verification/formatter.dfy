/**
 * `get_message`: the announcement text for an album, a date and the group's
 * page. The date that `chrono::Local::now()` supplies is a parameter here.
 */
module Formatter {
  import opened Text
  import opened Decimal
  import opened Fetcher

  /** The local date as `month()`, `day()` (both `u32`) and `year()` (an `i32`). */
  datatype Date = Date(month: nat, day: nat, year: int)

  const HEADER := "1001albumsgenerator "

  /** A character of a rendered date: a digit, the '/' separator, or the sign of a negative year. */
  predicate DateChar(c: char) { IsDigit(c) || c == '/' || c == '-' }

  /** The date as the message writes it: `month/day/year`, each number unpadded. */
  function DateText(date: Date): (r: string)
    ensures forall k :: 0 <= k < |r| ==> DateChar(r[k])
  {
    var m, d, y := NatToString(date.month), NatToString(date.day), IntToString(date.year);
    var r := m + "/" + d + "/" + y;
    assert forall k :: 0 <= k < |r| ==> DateChar(r[k]) by {
      forall k | 0 <= k < |r| ensures DateChar(r[k]) {
        if k < |m| {
          assert r[k] == m[k];
        } else if k == |m| || k == |m| + 1 + |d| {
        } else if k < |m| + 1 + |d| {
          assert r[k] == d[k - |m| - 1];
        } else {
          assert r[k] == y[k - |m| - |d| - 2];
        }
      }
    }
    r
  }

  /** The announcement text. Its first line is the header and the date, nothing else. */
  function GetMessage(album: Album, generatorGroupUrl: string, date: Date): (r: string)
    ensures FirstLine(r) == HEADER + DateText(date)
  {
    var msg :=
      HEADER + DateText(date) + "\n\n"
      + album.album + " by " + album.artist + " (" + album.releaseYear + ")\n\n"
      + album.spotifyLink + "\n\n"
      + "Group: " + generatorGroupUrl + "\n";
    HeaderLine(HEADER + DateText(date), msg);
    msg
  }

  /** A numeral `Display` may write for an `i32`. */
  predicate IntNumeral(s: string)
  {
    Canonical(s) || (|s| >= 2 && s[0] == '-' && s[1] != '0' && Canonical(s[1..]))
  }

  /** Reads a `month/day/year` date back. */
  function ParseDate(s: string): Option<Date>
  {
    match SplitOnce(s, '/')
    case None => None
    case Some((m, rest)) =>
      match SplitOnce(rest, '/')
      case None => None
      case Some((d, y)) =>
        if Canonical(m) && Canonical(d) && IntNumeral(y) then
          Some(Date(ParseNat(m), ParseNat(d), ParseInt(y)))
        else None
  }

  /** The first line of a text, without its line break. */
  function FirstLine(s: string): string
  {
    s[..IndexOf(s, '\n')]
  }

  /** The date an announcement carries in its header line, if it has one. */
  function MessageDate(msg: string): Option<Date>
  {
    match StripPrefix(HEADER, FirstLine(msg))
    case None => None
    case Some(rest) => ParseDate(rest)
  }

  lemma IntToStringNumeral(i: int)
    ensures IntNumeral(IntToString(i))
  {
    if i < 0 {
      var s := IntToString(i);
      assert s[1..] == NatToString(-i);
      NatToStringCanonical(-i);
    } else {
      NatToStringCanonical(i);
    }
  }

  /** Splitting `a/b/c` at its two slashes, when neither `a` nor `b` holds a slash. */
  lemma ParseDateParts(a: string, b: string, c: string)
    requires Canonical(a) && Canonical(b) && IntNumeral(c)
    ensures ParseDate(a + "/" + b + "/" + c) == Some(Date(ParseNat(a), ParseNat(b), ParseInt(c)))
  {
    assert a + "/" + b + "/" + c == a + ['/'] + (b + ['/'] + c);
    SplitOnceAfter(a, '/', b + ['/'] + c);
    SplitOnceAfter(b, '/', c);
  }

  /** The first line of a text that starts with `line` and a line break, where `line` has none, is `line`. */
  lemma HeaderLine(line: string, msg: string)
    requires line + "\n" <= msg
    requires forall k :: 0 <= k < |line| ==> line[k] != '\n'
    ensures FirstLine(msg) == line
  {
    var tail := msg[|line| + 1..];
    assert msg == line + ['\n'] + tail;
    IndexOfAfter(line, '\n', tail);
  }

  /** The rendered date reads back as the same date: month, day and year cannot run into each other. */
  lemma ParseDateText(date: Date)
    ensures ParseDate(DateText(date)) == Some(date)
  {
    NatToStringCanonical(date.month);
    NatToStringCanonical(date.day);
    IntToStringNumeral(date.year);
    ParseDateParts(NatToString(date.month), NatToString(date.day), IntToString(date.year));
    ParseNatToString(date.month);
    ParseNatToString(date.day);
    ParseIntToString(date.year);
  }

  /** The header line of an announcement gives back the date it was formatted with. */
  lemma MessageDateRoundTrip(album: Album, generatorGroupUrl: string, date: Date)
    ensures MessageDate(GetMessage(album, generatorGroupUrl, date)) == Some(date)
  {
    StripPrefixConcat(HEADER, DateText(date));
    ParseDateText(date);
  }

  /** `sub` stands in `s` at position `at`. */
  predicate OccursAt(sub: string, s: string, at: nat)
  {
    at + |sub| <= |s| && s[at..at + |sub|] == sub
  }

  /** What follows a prefix `pre` of `s` up to the end of the prefix `pre + sub` is `sub`. */
  lemma OccursAfterPrefix(pre: string, sub: string, s: string)
    requires pre + sub <= s
    ensures OccursAt(sub, s, |pre|)
  {
    assert s[|pre|..|pre| + |sub|] == (pre + sub)[|pre|..];
  }

  /** Where each value stands in the announcement's layout, whatever the header and the date text. */
  lemma LayoutOffsets(msg: string, header: string, dateText: string,
                      name: string, artist: string, year: string, link: string, url: string)
    requires msg == header + dateText + "\n\n" + name + " by " + artist + " (" + year + ")\n\n"
      + link + "\n\n" + "Group: " + url + "\n"
    ensures var o1 := |header| + |dateText| + 2;
      var o2 := o1 + |name| + 4;
      var o3 := o2 + |artist| + 2;
      var o4 := o3 + |year| + 3;
      var o5 := o4 + |link| + 9;
      OccursAt(name, msg, o1) && OccursAt(artist, msg, o2) &&
      OccursAt(year, msg, o3) && OccursAt(link, msg, o4) &&
      OccursAt(url, msg, o5) && |msg| == o5 + |url| + 1 && msg[|msg| - 1] == '\n'
  {
    var p0 := header + dateText + "\n\n";
    var p1 := p0 + name + " by ";
    var p2 := p1 + artist + " (";
    var p3 := p2 + year + ")\n\n";
    var p4 := p3 + link + "\n\n" + "Group: ";
    assert p4 + url <= msg;
    assert p3 + link <= p4 <= msg;
    assert p2 + year <= p3 <= msg;
    assert p1 + artist <= p2 <= msg;
    assert p0 + name <= p1 <= msg;
    OccursAfterPrefix(p0, name, msg);
    OccursAfterPrefix(p1, artist, msg);
    OccursAfterPrefix(p2, year, msg);
    OccursAfterPrefix(p3, link, msg);
    OccursAfterPrefix(p4, url, msg);
  }

  /**
   * The announcement carries the four album values and the group URL
   * verbatim, in this order, and ends with a line break after the group URL.
   */
  lemma MessageCarriesInputs(album: Album, generatorGroupUrl: string, date: Date)
    ensures var msg := GetMessage(album, generatorGroupUrl, date);
      var o1 := |HEADER| + |DateText(date)| + 2;
      var o2 := o1 + |album.album| + 4;
      var o3 := o2 + |album.artist| + 2;
      var o4 := o3 + |album.releaseYear| + 3;
      var o5 := o4 + |album.spotifyLink| + 9;
      OccursAt(album.album, msg, o1) && OccursAt(album.artist, msg, o2) &&
      OccursAt(album.releaseYear, msg, o3) && OccursAt(album.spotifyLink, msg, o4) &&
      OccursAt(generatorGroupUrl, msg, o5) && |msg| == o5 + |generatorGroupUrl| + 1 &&
      msg[|msg| - 1] == '\n'
  {
    LayoutOffsets(GetMessage(album, generatorGroupUrl, date), HEADER, DateText(date),
      album.album, album.artist, album.releaseYear, album.spotifyLink, generatorGroupUrl);
  }

  /** The date of 15 March 2024 is written "3/15/2024". */
  lemma ExampleDate()
    ensures DateText(Date(3, 15, 2024)) == "3/15/2024"
  {
    assert NatToString(3) == "3";
    assert NatToString(1) == "1";
    assert NatToString(15) == NatToString(1) + "5" == "15";
    assert NatToString(2) == "2";
    assert NatToString(20) == NatToString(2) + "0" == "20";
    assert NatToString(202) == NatToString(20) + "2" == "202";
    assert NatToString(2024) == NatToString(202) + "4" == "2024";
  }

  /**
   * The complete announcement for one album on 15 March 2024. The expected
   * text is split where the template inserts a value.
   */
  lemma ExampleMessage()
    ensures GetMessage(
        Album("OK Computer", "Radiohead", "1997-05-21", "https://open.spotify.com/album/XYZ"),
        "https://1001albumsgenerator.com/groups/abc", Date(3, 15, 2024))
      == "1001albumsgenerator " + "3/15/2024" + "\n\n"
         + "OK Computer" + " by " + "Radiohead" + " (" + "1997-05-21" + ")\n\n"
         + "https://open.spotify.com/album/XYZ" + "\n\n"
         + "Group: " + "https://1001albumsgenerator.com/groups/abc" + "\n"
  {
    ExampleDate();
  }
}
