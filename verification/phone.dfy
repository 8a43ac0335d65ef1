/** Phone-number acceptance and session-file naming (bot.py, `make_session_filename`
    and the first lines of `receive_phone`). */
module Phone {
  import opened Wrappers
  import opened Text

  /** The shortest stripped phone text `receive_phone` accepts. */
  const MinPhoneLength := 7

  /** Telethon stores a session under this extension. */
  const SessionSuffix := ".session"

  /** The SQLite journal Telethon may leave next to a session file. */
  const JournalSuffix := "-journal"

  /** The phone check of `receive_phone`: strip the text, then reject it when it
      is empty, does not start with `+`, or is shorter than seven characters.
      The accepted value is the stripped text itself. */
  function CheckPhone(text: string): (r: Option<string>)
    ensures r.Some? <==> |Strip(text)| >= MinPhoneLength && Strip(text)[0] == '+'
    ensures r.Some? ==> r.value == Strip(text) && Trimmed(r.value)
  {
    var phone := Strip(text);
    if |phone| == 0 || !StartsWith(phone, "+") || |phone| < MinPhoneLength then
      None
    else
      Some(phone)
  }

  /** Surrounding whitespace never changes the verdict or the accepted phone. */
  lemma CheckPhoneIgnoresPadding(a: string, text: string, b: string)
    requires AllSpace(a) && AllSpace(b)
    ensures CheckPhone(a + text + b) == CheckPhone(text)
  {
    StripIgnoresPadding(a, text, b);
  }

  /** A phone with every space and hyphen removed. */
  function Sanitize(phone: string): (r: string)
    ensures ' ' !in r && '-' !in r
  {
    var noSpaces := RemoveAll(phone, ' ');
    RemoveAllKeepsAbsence(noSpaces, '-', ' ');
    RemoveAll(noSpaces, '-')
  }

  /** The shape of every name `make_session_filename` returns: a stem free of
      spaces and hyphens, then `.session`. */
  predicate IsSessionName(f: string) {
    && |f| >= |SessionSuffix|
    && f[|f| - |SessionSuffix|..] == SessionSuffix
    && ' ' !in f[..|f| - |SessionSuffix|]
    && '-' !in f[..|f| - |SessionSuffix|]
  }

  /** The shape of the `-journal` companion of a session file. */
  predicate IsJournalName(f: string) {
    && |f| >= |JournalSuffix|
    && f[|f| - |JournalSuffix|..] == JournalSuffix
    && IsSessionName(f[..|f| - |JournalSuffix|])
  }

  /** `make_session_filename`: the sanitised phone followed by `.session`. */
  function MakeSessionFilename(phone: string): (path: string)
    ensures |path| == |Sanitize(phone)| + |SessionSuffix|
    ensures path[..|path| - |SessionSuffix|] == Sanitize(phone)
    ensures path[|path| - |SessionSuffix|..] == SessionSuffix
    ensures IsSessionName(path)
  {
    var path := Sanitize(phone) + SessionSuffix;
    assert path[..|path| - |SessionSuffix|] == Sanitize(phone);
    path
  }

  /** The companion file `safe_send_file` also removes: `path.name + "-journal"`
      in the same directory. */
  function JournalOf(path: string): (j: string)
    ensures |j| == |path| + |JournalSuffix|
    ensures j[..|path|] == path
    ensures j[|path|..] == JournalSuffix
    ensures IsSessionName(path) ==> IsJournalName(j)
  {
    path + JournalSuffix
  }

  /** Two phones name the same session file exactly when they agree after
      spaces and hyphens are removed. */
  lemma SameFileIffSameSanitized(p: string, q: string)
    ensures MakeSessionFilename(p) == MakeSessionFilename(q) <==> Sanitize(p) == Sanitize(q)
  {
    if MakeSessionFilename(p) == MakeSessionFilename(q) {
      var f := MakeSessionFilename(p);
      assert Sanitize(p) == f[..|f| - |SessionSuffix|];
      assert Sanitize(q) == f[..|f| - |SessionSuffix|];
    }
  }

  /** Sanitising keeps every character other than a space or a hyphen, as
      many times as it occurs in the phone. */
  lemma SanitizeCounts(phone: string)
    ensures multiset(Sanitize(phone)) == multiset(phone)[' ' := 0]['-' := 0]
  {
    RemoveAllCounts(phone, ' ');
    RemoveAllCounts(RemoveAll(phone, ' '), '-');
  }

  /** Sanitising distributes over concatenation. */
  lemma SanitizeAppend(x: string, y: string)
    ensures Sanitize(x + y) == Sanitize(x) + Sanitize(y)
  {
    RemoveAllAppend(x, y, ' ');
    RemoveAllAppend(RemoveAll(x, ' '), RemoveAll(y, ' '), '-');
  }

  /** Inserting a space or a hyphen anywhere in a phone leaves its file name
      unchanged. */
  lemma SeparatorIgnored(a: string, c: char, b: string)
    requires c == ' ' || c == '-'
    ensures MakeSessionFilename(a + [c] + b) == MakeSessionFilename(a + b)
  {
    SanitizeAppend(a + [c], b);
    SanitizeAppend(a, [c]);
    SanitizeAppend(a, b);
    assert Sanitize([c]) == [];
    assert Sanitize(a) + [] == Sanitize(a);
    SameFileIffSameSanitized(a + [c] + b, a + b);
  }

  /** Sanitising is idempotent: a phone already free of separators names the
      same file as the phone it came from. */
  lemma SanitizeIdempotent(phone: string)
    ensures Sanitize(Sanitize(phone)) == Sanitize(phone)
    ensures MakeSessionFilename(Sanitize(phone)) == MakeSessionFilename(phone)
  {
    var s := Sanitize(phone);
    RemoveAllAbsent(s, ' ');
    RemoveAllAbsent(s, '-');
  }

  /** A journal companion is never itself a session file, so removing it never
      removes another phone's session. */
  lemma JournalIsNoSessionFile(p: string, q: string)
    ensures JournalOf(MakeSessionFilename(p)) != MakeSessionFilename(q)
  {
    var j, f := JournalOf(MakeSessionFilename(p)), MakeSessionFilename(q);
    assert j[|j| - 1] == 'l';
    assert f[|f| - 1] == 'n';
  }

  /** A phone without separators names the file `phone + ".session"`. */
  lemma CompactPhoneFile(phone: string)
    requires ' ' !in phone && '-' !in phone
    ensures MakeSessionFilename(phone) == phone + SessionSuffix
  {
    RemoveAllAbsent(phone, ' ');
    RemoveAllAbsent(phone, '-');
  }

  /** The file name of a phone is its sanitised form followed by `.session`,
      whatever separators the phone was written with. */
  lemma SessionFilenameOfSanitized(phone: string)
    ensures MakeSessionFilename(phone) == Sanitize(phone) + SessionSuffix
    ensures MakeSessionFilename(Sanitize(phone)) == MakeSessionFilename(phone)
  {
    SanitizeIdempotent(phone);
    CompactPhoneFile(Sanitize(phone));
  }

  /** Every session-shaped name is the file name of some phone: its own stem. */
  lemma SessionNameIsFilename(f: string)
    requires IsSessionName(f)
    ensures MakeSessionFilename(f[..|f| - |SessionSuffix|]) == f
  {
    var stem := f[..|f| - |SessionSuffix|];
    CompactPhoneFile(stem);
    assert f == stem + SessionSuffix;
  }

  /** The example number of the phone prompt, `+919876543210`, written grouped
      with a space and hyphens, names the same session file as written compactly. */
  lemma GroupedGreetingNumber()
    ensures MakeSessionFilename("+91 98-76-54-32-10") == MakeSessionFilename("+919876543210")
  {
    GroupedPhoneSharesFile("+91", "98", "76", "54", "32", "10");
    assert "+91" + " " + "98" + "-" + "76" + "-" + "54" + "-" + "32" + "-" + "10" == "+91 98-76-54-32-10";
    assert "+91" + "98" + "76" + "54" + "32" + "10" == "+919876543210";
  }

  /** A number written as a country code, a space and hyphen-separated
      groups names the same file as the groups written together. */
  lemma GroupedPhoneSharesFile(a: string, b: string, c: string, d: string, e: string, f: string)
    ensures MakeSessionFilename(a + " " + b + "-" + c + "-" + d + "-" + e + "-" + f)
         == MakeSessionFilename(a + b + c + d + e + f)
  {
    GroupedPhoneSanitizes(a, b, c, d, e, f);
    SameFileIffSameSanitized(a + " " + b + "-" + c + "-" + d + "-" + e + "-" + f, a + b + c + d + e + f);
  }

  lemma GroupedPhoneSanitizes(a: string, b: string, c: string, d: string, e: string, f: string)
    ensures Sanitize(a + " " + b + "-" + c + "-" + d + "-" + e + "-" + f)
         == Sanitize(a + b + c + d + e + f)
  {
    var w1 := a + " " + b;
    var w2 := w1 + "-" + c;
    var w3 := w2 + "-" + d;
    var w4 := w3 + "-" + e;
    SeparatorJoin(a, " ", b, a);
    SeparatorJoin(w1, "-", c, a + b);
    SeparatorJoin(w2, "-", d, a + b + c);
    SeparatorJoin(w3, "-", e, a + b + c + d);
    SeparatorJoin(w4, "-", f, a + b + c + d + e);
  }

  /** A one-character separator between two pieces vanishes on sanitising:
      if `x` sanitises like `z`, then `x`, the separator and `y` sanitise
      like `z + y`. */
  lemma SeparatorJoin(x: string, sep: string, y: string, z: string)
    requires sep == " " || sep == "-"
    requires Sanitize(x) == Sanitize(z)
    ensures Sanitize(x + sep + y) == Sanitize(z + y)
  {
    assert Sanitize(sep) == [];
    SanitizeAppend(x, sep);
    SanitizeAppend(x + sep, y);
    SanitizeAppend(z, y);
    assert Sanitize(x) + [] == Sanitize(x);
  }
}
