/**
  The Yaru accent parser: the classification of a GTK theme name inside
  update_yaru_accent_from_theme, together with the '-'-splitting it relies on.
 */
module YaruTheme {
  import opened Wrappers

  /** Every component is free of the separator. */
  ghost predicate DashFree(parts: seq<string>)
  {
    forall i :: 0 <= i < |parts| ==> '-' !in parts[i]
  }

  /** Glues components back together with '-' between neighbours. */
  function Join(parts: seq<string>): string
  {
    if |parts| == 0 then ""
    else if |parts| == 1 then parts[0]
    else parts[0] + "-" + Join(parts[1..])
  }

  /**
    Splitting at every '-' with no limit on the number of pieces. For a
    non-empty string this is what g_strsplit (s, "-", -1) yields; the
    empty string, which GLib splits into no pieces at all, is never split
    by the parser (it only splits names that start with "Yaru-").
   */
  function Split(s: string): (parts: seq<string>)
    ensures |parts| >= 1
    ensures DashFree(parts)
    ensures Join(parts) == s
    decreases |s|
  {
    if s == [] then [""]
    else if s[0] == '-' then
      var rest := Split(s[1..]);
      assert ([""] + rest)[1..] == rest;
      [""] + rest
    else
      var rest := Split(s[1..]);
      var parts := [[s[0]] + rest[0]] + rest[1..];
      assert parts[1..] == rest[1..];
      assert s == [s[0]] + s[1..];
      parts
  }

  /** Splitting a word, a dash and a tail: the word comes off as the first piece. */
  lemma {:induction false} SplitAfterWord(w: string, t: string)
    requires '-' !in w
    ensures Split(w + "-" + t) == [w] + Split(t)
    decreases |w|
  {
    if w == [] {
      assert w + "-" + t == ['-'] + t;
      assert (['-'] + t)[1..] == t;
    } else {
      assert (w + "-" + t)[1..] == w[1..] + "-" + t;
      SplitAfterWord(w[1..], t);
      assert [w[0]] + w[1..] == w;
    }
  }

  /** Split undoes Join: a dash-free list of pieces is recovered from its joined form. */
  lemma {:induction false} SplitJoin(parts: seq<string>)
    requires |parts| >= 1 && DashFree(parts)
    ensures Split(Join(parts)) == parts
    decreases |parts|
  {
    if |parts| == 1 {
      SplitWord(parts[0]);
    } else {
      SplitJoin(parts[1..]);
      SplitAfterWord(parts[0], Join(parts[1..]));
      assert [parts[0]] + parts[1..] == parts;
    }
  }

  /** A dash-free word is a single piece. */
  lemma {:induction false} SplitWord(w: string)
    requires '-' !in w
    ensures Split(w) == [w]
    decreases |w|
  {
    if w != [] {
      SplitWord(w[1..]);
      assert [w[0]] + w[1..] == w;
    }
  }

  /** The first piece of a split is the longest dash-free prefix. */
  lemma {:induction false} SplitHead(s: string)
    ensures |Split(s)[0]| <= |s| && s[..|Split(s)[0]|] == Split(s)[0]
    ensures |Split(s)[0]| == |s| || s[|Split(s)[0]|] == '-'
  {
    var parts := Split(s);
    if |parts| > 1 {
      assert s == parts[0] + "-" + Join(parts[1..]);
      assert s[|parts[0]|] == '-';
    }
  }

  /** theme[from..] starts with accent, which runs up to the next '-' or to the end. */
  ghost predicate ComponentAt(theme: string, from: nat, accent: string)
  {
    && from + |accent| <= |theme|
    && theme[from..from + |accent|] == accent
    && '-' !in accent
    && (from + |accent| == |theme| || theme[from + |accent|] == '-')
  }

  /** A name of the Yaru family: the bare theme, or "Yaru-" followed by anything. */
  predicate IsYaruName(theme: string)
  {
    theme == "Yaru" || (|theme| >= 5 && theme[..5] == "Yaru-")
  }

  /**
    The accent named by a GTK theme: "default" for Yaru and Yaru-dark, the
    second '-'-separated component of any other "Yaru-…" name, and None for
    every other theme, including names that start with "Yaru" but do not
    have a '-' right after it.
   */
  function Accent(theme: string): (r: Option<string>)
    ensures r.Some? <==> IsYaruName(theme)
    ensures theme == "Yaru" || theme == "Yaru-dark" ==> r == Some("default")
  {
    if |theme| >= 4 && theme[..4] == "Yaru" then
      if theme == "Yaru" || theme == "Yaru-dark" then Some("default")
      else
        if theme[4] == '-' then
          var variant := Split(theme);
          assert theme == "Yaru" + "-" + theme[5..];
          SplitAfterWord("Yaru", theme[5..]);
          assert theme[..5] == "Yaru-";
          if |variant| > 1 then Some(variant[1]) else None
        else
          assert theme[..5][4] != '-';
          None
    else
      None
  }

  /** Every Yaru variant other than the two base names yields the component right after "Yaru-". */
  lemma AccentIsSecondComponent(theme: string)
    requires |theme| >= 5 && theme[..5] == "Yaru-" && theme != "Yaru-dark"
    ensures Accent(theme).Some? && ComponentAt(theme, 5, Accent(theme).value)
  {
    assert theme == "Yaru" + "-" + theme[5..];
    SplitAfterWord("Yaru", theme[5..]);
    var tail := theme[5..];
    SplitHead(tail);
    var a := Split(tail)[0];
    assert theme[..4] == "Yaru";
    assert Accent(theme) == Some(a);
    assert '-' !in a by {
      assert Split(tail)[0] in Split(tail);
    }
    assert theme[5..5 + |a|] == tail[..|a|];
  }

  /**
    Composing a theme name from an accent and a '-'-led suffix ("", "-dark",
    "-dark-x", …) and parsing it back gives the accent, except for the one
    name "Yaru-dark" that the parser reserves.
   */
  lemma AccentOfVariant(accent: string, suffix: string)
    requires '-' !in accent
    requires suffix == "" || suffix[0] == '-'
    requires "Yaru-" + accent + suffix != "Yaru-dark"
    ensures Accent("Yaru-" + accent + suffix) == Some(accent)
  {
    var theme := "Yaru-" + accent + suffix;
    var tail := accent + suffix;
    assert theme == "Yaru" + "-" + tail;
    SplitAfterWord("Yaru", tail);
    if suffix == "" {
      assert tail == accent;
      SplitWord(accent);
    } else {
      assert tail == accent + "-" + suffix[1..];
      SplitAfterWord(accent, suffix[1..]);
    }
    assert Split(theme)[1] == accent;
    assert theme[..4] == "Yaru" && theme[4] == '-';
  }

  /** "Yaru-" alone names the empty accent: the second piece of its split is empty. */
  lemma BareYaruDashIsEmptyAccent()
    ensures Accent("Yaru-") == Some("")
  {
    AccentOfVariant("", "");
  }
}
