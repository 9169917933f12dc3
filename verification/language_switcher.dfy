/**
 * The locale switch of src/components/common/LanguageSwitcher.tsx: the
 * chosen locale is remembered in localStorage, then the current path is
 * split on "/", its segment 1 overwritten with the locale, and the segments
 * joined again. The router navigation itself is left out.
 */
module LocaleSwitch {
  import opened Storage

  const PreferredLocaleKey: string := "preferredLocale"

  /**
   * `s.split("/")`: the pieces between separators, so there is always at
   * least one, "" splits into [""], and no piece holds a "/".
   */
  function Split(s: string): (r: seq<string>)
    ensures |r| >= 1
    ensures forall i :: 0 <= i < |r| ==> '/' !in r[i]
    decreases |s|
  {
    if |s| == 0 then [""]
    else
      var rest := Split(s[1..]);
      if s[0] == '/' then [""] + rest
      else [[s[0]] + rest[0]] + rest[1..]
  }

  /** `segments.join("/")`. */
  function Join(segments: seq<string>): string
    decreases |segments|
  {
    if |segments| == 0 then ""
    else if |segments| == 1 then segments[0]
    else segments[0] + "/" + Join(segments[1..])
  }

  /** Joining the pieces of a split gives the string back. */
  lemma {:induction false} JoinSplit(s: string)
    ensures Join(Split(s)) == s
    decreases |s|
  {
    if |s| > 0 {
      var rest := Split(s[1..]);
      JoinSplit(s[1..]);
      if s[0] == '/' {
        assert Split(s) == [""] + rest;
        assert ([""] + rest)[1..] == rest;
        assert s == "/" + s[1..];
      } else {
        var first := [s[0]] + rest[0];
        assert Split(s) == [first] + rest[1..];
        if |rest| == 1 {
          assert s == [s[0]] + s[1..];
        } else {
          assert ([first] + rest[1..])[1..] == rest[1..];
          assert Join(rest) == rest[0] + "/" + Join(rest[1..]);
          assert s == [s[0]] + s[1..];
        }
      }
    }
  }

  /** A word without "/" glues onto the first piece of what follows it. */
  lemma {:induction false} SplitPrefix(w: string, rest: string)
    requires '/' !in w
    ensures Split(w + rest) == [w + Split(rest)[0]] + Split(rest)[1..]
    decreases |w|
  {
    if |w| > 0 {
      SplitPrefix(w[1..], rest);
      assert (w + rest)[1..] == w[1..] + rest;
      assert [w[0]] + (w[1..] + Split(rest)[0]) == w + Split(rest)[0];
    } else {
      var parts := Split(rest);
      assert w + rest == rest;
      assert w + parts[0] == parts[0];
      assert parts == [parts[0]] + parts[1..];
    }
  }

  /** Splitting a join of pieces without "/" gives the pieces back. */
  lemma {:induction false} SplitJoin(segments: seq<string>)
    requires |segments| >= 1
    requires forall i :: 0 <= i < |segments| ==> '/' !in segments[i]
    ensures Split(Join(segments)) == segments
    decreases |segments|
  {
    if |segments| == 1 {
      SplitPrefix(segments[0], "");
      assert segments[0] + "" == segments[0];
    } else {
      var tail := Join(segments[1..]);
      SplitJoin(segments[1..]);
      assert Split("/" + tail) == [""] + Split(tail) by {
        assert ("/" + tail)[1..] == tail;
      }
      assert segments[0] + "/" + tail == segments[0] + ("/" + tail);
      SplitPrefix(segments[0], "/" + tail);
      assert segments[0] + "" == segments[0];
      assert ([""] + segments[1..])[1..] == segments[1..];
      assert segments == [segments[0]] + segments[1..];
    }
  }

  /** `segments[1] = locale` on a JavaScript array: a one-piece array grows to two. */
  function SetLocaleSegment(segments: seq<string>, locale: string): (r: seq<string>)
    requires |segments| >= 1
    ensures |r| == if |segments| >= 2 then |segments| else 2
    ensures r[1] == locale && forall i :: 0 <= i < |r| && i != 1 ==> r[i] == segments[i]
  {
    if |segments| >= 2 then segments[1 := locale] else segments + [locale]
  }

  /** The path the switcher navigates to. */
  function Rewrite(path: string, locale: string): string {
    Join(SetLocaleSegment(Split(path), locale))
  }

  /**
   * `handleLocaleChange`: the locale is stored under "preferredLocale",
   * then the path is rewritten.
   */
  method HandleLocaleChange(storage: LocalStorage, currentPath: string, newLocale: string)
    returns (stored: LocalStorage, newPath: string)
    ensures stored == storage[PreferredLocaleKey := Text(newLocale)]
    ensures newPath == Rewrite(currentPath, newLocale)
  {
    stored := storage[PreferredLocaleKey := Text(newLocale)];
    var segments := Split(currentPath);
    if |segments| >= 2 {
      segments := segments[1 := newLocale];
    } else {
      segments := segments + [newLocale];
    }
    newPath := Join(segments);
  }

  /**
   * For a locale without "/": the rewritten path's segment 1 is the locale,
   * every other segment is the original one, and there are
   * max(original count, 2) segments.
   */
  lemma RewriteSegments(path: string, locale: string)
    requires '/' !in locale
    ensures var before := Split(path);
      var after := Split(Rewrite(path, locale));
      && |after| == (if |before| >= 2 then |before| else 2)
      && after[1] == locale
      && forall i :: 0 <= i < |after| && i != 1 ==> after[i] == before[i]
  {
    var segments := SetLocaleSegment(Split(path), locale);
    SplitJoin(segments);
  }

  /** Switching to the locale the path already shows changes nothing more. */
  lemma RewriteIdempotent(path: string, locale: string)
    requires '/' !in locale
    ensures Rewrite(Rewrite(path, locale), locale) == Rewrite(path, locale)
  {
    var once := Rewrite(path, locale);
    var segments := SetLocaleSegment(Split(path), locale);
    SplitJoin(segments);
    assert SetLocaleSegment(segments, locale) == segments;
  }

  /** From the root, switching to "en" leads to "/en". */
  lemma RewriteRoot()
    ensures Rewrite("", "en") == "/en"
  {
    assert Split("") == [""];
    assert SetLocaleSegment([""], "en") == ["", "en"];
    assert Join(["", "en"]) == "" + "/" + "en";
  }

  /** A locale prefix is swapped. */
  lemma RewriteLocalePrefix()
    ensures Rewrite("/en", "am") == "/am"
  {
    var before := ["", "en"];
    assert Join(before) == "/en";
    SplitJoin(before);
    assert Join(["", "am"]) == "/am";
  }
}
