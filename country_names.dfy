/**
 * How a click on the map finds the backend's record for the country under the
 * pointer (static/js/dashboard.js, the `find` callback of the click handler):
 * both names are lower-cased and trimmed, an exact match wins, and otherwise a
 * fixed table of canonical names and their variations is consulted in both
 * directions.
 */
module CountryNames {
  import opened Wrappers
  import opened Api

  /** The characters `String.prototype.trim` removes: white space and line terminators. */
  predicate IsSpace(c: char) {
    || c == '\t' || c == '\n' || c == '\U{000B}' || c == '\U{000C}' || c == '\r' || c == ' '
    || c == '\U{00A0}' || c == '\U{1680}' || ('\U{2000}' <= c <= '\U{200A}')
    || c == '\U{2028}' || c == '\U{2029}' || c == '\U{202F}' || c == '\U{205F}'
    || c == '\U{3000}' || c == '\U{FEFF}'
  }

  predicate AllSpace(s: string) {
    forall i :: 0 <= i < |s| ==> IsSpace(s[i])
  }

  /** `toLowerCase` on one character (ASCII letters only). */
  function LowerChar(c: char): (r: char)
    ensures !('A' <= r <= 'Z')
    ensures 'A' <= c <= 'Z' ==> 'a' <= r <= 'z' && r as int - 'a' as int == c as int - 'A' as int
    ensures !('A' <= c <= 'Z') ==> r == c
  {
    if 'A' <= c <= 'Z' then (c as int - 'A' as int + 'a' as int) as char else c
  }

  function ToLower(s: string): (r: string)
    ensures |r| == |s|
    ensures forall i :: 0 <= i < |s| ==> r[i] == LowerChar(s[i])
  {
    seq(|s|, i requires 0 <= i < |s| => LowerChar(s[i]))
  }

  /** `trimStart()`. */
  function TrimStart(s: string): string {
    if s != [] && IsSpace(s[0]) then TrimStart(s[1..]) else s
  }

  /** `trimEnd()`. */
  function TrimEnd(s: string): string {
    if s != [] && IsSpace(s[|s| - 1]) then TrimEnd(s[..|s| - 1]) else s
  }

  /** `TrimStart` drops a run of leading white space and nothing else. */
  lemma {:induction false} TrimStartShape(s: string)
    ensures var r := TrimStart(s); (r == [] || !IsSpace(r[0])) && |r| <= |s| && r == s[|s| - |r|..]
    ensures AllSpace(s[..|s| - |TrimStart(s)|])
    decreases |s|
  {
    if s != [] && IsSpace(s[0]) {
      TrimStartShape(s[1..]);
      var t := TrimStart(s[1..]);
      assert s[..|s| - |t|] == [s[0]] + s[1..][..|s| - 1 - |t|];
    }
  }

  /** `TrimEnd` drops a run of trailing white space and nothing else. */
  lemma {:induction false} TrimEndShape(s: string)
    ensures var r := TrimEnd(s); (r == [] || !IsSpace(r[|r| - 1])) && |r| <= |s| && r == s[..|r|]
    ensures AllSpace(s[|TrimEnd(s)|..])
    decreases |s|
  {
    if s != [] && IsSpace(s[|s| - 1]) {
      TrimEndShape(s[..|s| - 1]);
      var t := TrimEnd(s[..|s| - 1]);
      assert s[|t|..] == s[..|s| - 1][|t|..] + [s[|s| - 1]];
    }
  }

  /** `trim()`. */
  function Trim(s: string): string {
    TrimEnd(TrimStart(s))
  }

  /** `toLowerCase().trim()`, applied to both names before any comparison. */
  function Normalize(s: string): string {
    Trim(ToLower(s))
  }

  /** A normalised name has no capital letters and no white space at either end. */
  lemma NormalizeShape(s: string)
    ensures var r := Normalize(s);
            && (r == [] || (!IsSpace(r[0]) && !IsSpace(r[|r| - 1])))
            && forall i :: 0 <= i < |r| ==> !('A' <= r[i] <= 'Z')
  {
    TrimShape(ToLower(s));
    forall c | c in ToLower(s)
      ensures !('A' <= c <= 'Z')
    {
    }
  }

  /** `trim` keeps characters of its input only, and leaves no white space at either end. */
  lemma TrimShape(s: string)
    ensures var r := Trim(s);
            && (r == [] || (!IsSpace(r[0]) && !IsSpace(r[|r| - 1])))
            && forall i :: 0 <= i < |r| ==> r[i] in s
  {
    var t := TrimStart(s);
    var r := TrimEnd(t);
    TrimStartShape(s);
    TrimEndShape(t);
    forall i | 0 <= i < |r|
      ensures r[i] in s
    {
      assert r[i] == s[|s| - |t| + i];
    }
    assert r == [] || r[0] == t[0];
  }

  /** The canonical names and the variations accepted for each (dashboard.js:153-170). */
  const NameVariations: seq<(string, seq<string>)> := [
    ("united states", ["usa", "united states of america", "u.s.a.", "u.s.a"]),
    ("united kingdom", ["uk", "great britain", "britain", "u.k.", "u.k"]),
    ("russian federation", ["russia"]),
    ("czech republic", ["czechia"]),
    ("republic of korea", ["south korea", "korea"]),
    ("democratic people's republic of korea", ["north korea"]),
    ("iran", ["iran (islamic republic of)"]),
    ("vietnam", ["viet nam"]),
    ("brunei", ["brunei darussalam"]),
    ("congo", ["republic of the congo"]),
    ("democratic republic of the congo", ["drc", "congo (kinshasa)"]),
    ("laos", ["lao people's democratic republic"]),
    ("syria", ["syrian arab republic"]),
    ("tanzania", ["united republic of tanzania"]),
    ("uae", ["united arab emirates"]),
    ("venezuela", ["bolivarian republic of venezuela"])
  ]

  /** One entry of the table links the two normalised names, in either direction. */
  predicate EntryLinks(entry: (string, seq<string>), m: string, d: string) {
    || (m == entry.0 && d in entry.1)
    || (d == entry.0 && m in entry.1)
  }

  /** The `for ... of Object.entries(nameVariations)` scan, from entry `k` on. */
  function VariationScan(table: seq<(string, seq<string>)>, m: string, d: string, k: nat): bool
    requires k <= |table|
    decreases |table| - k
  {
    if k == |table| then false
    else if m == table[k].0 && d in table[k].1 then true
    else if d == table[k].0 && m in table[k].1 then true
    else VariationScan(table, m, d, k + 1)
  }

  /** The scan succeeds exactly when some entry from `k` on links the two names. */
  lemma {:induction false} VariationScanSpec(table: seq<(string, seq<string>)>, m: string, d: string, k: nat)
    requires k <= |table|
    ensures VariationScan(table, m, d, k) <==> exists j :: k <= j < |table| && EntryLinks(table[j], m, d)
    decreases |table| - k
  {
    if k < |table| {
      VariationScanSpec(table, m, d, k + 1);
    }
  }

  /** The matching predicate of the click handler: `mapName` is the map feature's name, `dataName` the record's. */
  function NamesMatch(mapName: string, dataName: string): bool {
    var m := Normalize(mapName);
    var d := Normalize(dataName);
    m == d || VariationScan(NameVariations, m, d, 0)
  }

  /**
   * Two names match exactly when their normal forms are equal or some entry
   * of the table links the normal forms, in either direction.
   */
  lemma NamesMatchSpec(mapName: string, dataName: string)
    ensures NamesMatch(mapName, dataName) <==>
              || Normalize(mapName) == Normalize(dataName)
              || exists j :: 0 <= j < |NameVariations| &&
                   EntryLinks(NameVariations[j], Normalize(mapName), Normalize(dataName))
  {
    VariationScanSpec(NameVariations, Normalize(mapName), Normalize(dataName), 0);
  }

  /** The match does not depend on which side the names come from. */
  lemma NamesMatchSymmetric(a: string, b: string)
    ensures NamesMatch(a, b) == NamesMatch(b, a)
  {
    var na, nb := Normalize(a), Normalize(b);
    VariationScanSpec(NameVariations, na, nb, 0);
    VariationScanSpec(NameVariations, nb, na, 0);
  }

  lemma {:induction false} TrimStartSkipsSpace(p: string, x: string)
    requires AllSpace(p)
    ensures TrimStart(p + x) == TrimStart(x)
    decreases |p|
  {
    if p == [] {
      assert p + x == x;
    } else {
      assert (p + x)[0] == p[0] && IsSpace(p[0]);
      assert (p + x)[1..] == p[1..] + x;
      TrimStartSkipsSpace(p[1..], x);
    }
  }

  lemma {:induction false} TrimEndSkipsSpace(x: string, q: string)
    requires AllSpace(q)
    ensures TrimEnd(x + q) == TrimEnd(x)
    decreases |q|
  {
    if q == [] {
      assert x + q == x;
    } else {
      assert (x + q)[|x + q| - 1] == q[|q| - 1] && IsSpace(q[|q| - 1]);
      assert (x + q)[..|x + q| - 1] == x + q[..|q| - 1];
      TrimEndSkipsSpace(x, q[..|q| - 1]);
    }
  }

  lemma {:induction false} TrimStartKeepsTail(x: string, q: string)
    requires !AllSpace(x)
    ensures TrimStart(x + q) == TrimStart(x) + q
    decreases |x|
  {
    if IsSpace(x[0]) {
      assert (x + q)[1..] == x[1..] + q;
      TrimStartKeepsTail(x[1..], q);
    }
  }

  /** White space around a name is ignored by `trim`. */
  lemma TrimIgnoresPadding(p: string, x: string, q: string)
    requires AllSpace(p) && AllSpace(q)
    ensures Trim(p + x + q) == Trim(x)
  {
    assert p + x + q == p + (x + q);
    TrimStartSkipsSpace(p, x + q);
    if AllSpace(x) {
      assert AllSpace(x + q);
      assert x + q == (x + q) + [];
      TrimStartSkipsSpace(x + q, []);
      TrimStartSkipsSpace(x, []);
      assert x + [] == x;
      assert (x + q) + [] == x + q;
    } else {
      TrimStartKeepsTail(x, q);
      TrimEndSkipsSpace(TrimStart(x), q);
    }
  }

  lemma ToLowerConcat(a: string, b: string)
    ensures ToLower(a + b) == ToLower(a) + ToLower(b)
  {
  }

  /** Normalisation ignores letter case and surrounding white space. */
  lemma NormalizeIgnoresCaseAndPadding(p: string, x: string, q: string)
    requires AllSpace(p) && AllSpace(q)
    ensures Normalize(p + x + q) == Normalize(x)
    ensures Normalize(ToLower(x)) == Normalize(x)
  {
    ToLowerConcat(p + x, q);
    ToLowerConcat(p, x);
    assert ToLower(p) == p;
    assert ToLower(q) == q;
    TrimIgnoresPadding(p, ToLower(x), q);
    assert ToLower(ToLower(x)) == ToLower(x);
  }

  /** A string with no upper-case letter is its own lower-case form. */
  lemma ToLowerFixed(s: string)
    requires forall i :: 0 <= i < |s| ==> !('A' <= s[i] <= 'Z')
    ensures ToLower(s) == s
  {
  }

  /** A trimmed string is left alone by `trim`. */
  lemma TrimFixed(r: string)
    requires r == [] || (!IsSpace(r[0]) && !IsSpace(r[|r| - 1]))
    ensures Trim(r) == r
  {
    assert TrimStart(r) == r;
  }

  /** Normalising twice is normalising once. */
  lemma NormalizeIdempotent(x: string)
    ensures Normalize(Normalize(x)) == Normalize(x)
  {
    var r := Normalize(x);
    NormalizeShape(x);
    ToLowerFixed(r);
    TrimFixed(r);
  }

  /** Padding or re-casing either name never changes the outcome of the match. */
  lemma NamesMatchIgnoresCaseAndSpace(a: string, b: string, p: string, q: string)
    requires AllSpace(p) && AllSpace(q)
    ensures NamesMatch(p + a + q, b) == NamesMatch(a, b)
    ensures NamesMatch(ToLower(a), b) == NamesMatch(a, b)
    ensures NamesMatch(b, p + a + q) == NamesMatch(b, a)
    ensures NamesMatch(b, ToLower(a)) == NamesMatch(b, a)
  {
    NormalizeIgnoresCaseAndPadding(p, a, q);
  }

  /** A canonical name matches each of its variations, whatever their case. */
  lemma CanonicalMatchesVariation()
    ensures NamesMatch("United States", "USA")
    ensures NamesMatch("United States", "U.S.A.")
  {
    assert ToLower("United States") == "united states";
    assert ToLower("USA") == "usa";
    assert ToLower("U.S.A.") == "u.s.a.";
    TrimFixed("united states");
    TrimFixed("usa");
    TrimFixed("u.s.a.");
    assert EntryLinks(NameVariations[0], "united states", "usa");
    assert EntryLinks(NameVariations[0], "united states", "u.s.a.");
    VariationScanSpec(NameVariations, "united states", "usa", 0);
    VariationScanSpec(NameVariations, "united states", "u.s.a.", 0);
  }

  /** Neither "usa" nor "u.s.a." is a canonical name of the table. */
  lemma VariationsAreNotCanonical()
    ensures forall j :: 0 <= j < |NameVariations| ==> NameVariations[j].0 != "usa" && NameVariations[j].0 != "u.s.a."
  {
    forall j | 0 <= j < |NameVariations|
      ensures NameVariations[j].0 != "usa" && NameVariations[j].0 != "u.s.a."
    {
      if j == 14 {
        assert NameVariations[j].0[1] == 'a';
      } else if j == 8 {
        assert NameVariations[j].0[0] == 'b';
      } else {
        assert |NameVariations[j].0| != 3 && |NameVariations[j].0| != 6;
      }
    }
  }

  /** Two variations of the same canonical name do not match each other: the match is not transitive. */
  lemma VariationsDoNotMatchEachOther()
    ensures !NamesMatch("USA", "U.S.A.")
  {
    assert Normalize("USA") == "usa" by {
      assert ToLower("USA") == "usa";
      TrimFixed("usa");
    }
    assert Normalize("U.S.A.") == "u.s.a." by {
      assert ToLower("U.S.A.") == "u.s.a.";
      TrimFixed("u.s.a.");
    }
    VariationsAreNotCanonical();
    VariationScanSpec(NameVariations, "usa", "u.s.a.", 0);
  }

  /** The normalised name appears in the table, as a standard name or as a variation. */
  predicate Listed(n: string) {
    exists j :: 0 <= j < |NameVariations| && (NameVariations[j].0 == n || n in NameVariations[j].1)
  }

  /** A name the table does not mention matches exactly the names that normalise to it. */
  lemma UnlistedNameMatchesOnlyItself(a: string, b: string)
    requires !Listed(Normalize(a))
    ensures NamesMatch(a, b) <==> Normalize(a) == Normalize(b)
    ensures NamesMatch(b, a) <==> Normalize(a) == Normalize(b)
  {
    var m := Normalize(a);
    var d := Normalize(b);
    VariationScanSpec(NameVariations, m, d, 0);
    VariationScanSpec(NameVariations, d, m, 0);
    forall j | 0 <= j < |NameVariations|
      ensures !EntryLinks(NameVariations[j], m, d) && !EntryLinks(NameVariations[j], d, m)
    {
      assert NameVariations[j].0 != m && m !in NameVariations[j].1;
    }
  }

  /** `Array.prototype.find`'s scan from index `k` on: the first position whose element satisfies `p`. */
  function FindFirst<T>(s: seq<T>, p: T -> bool, k: nat): (r: Option<nat>)
    requires k <= |s|
    ensures r.None? <==> forall i :: k <= i < |s| ==> !p(s[i])
    ensures r.Some? ==> k <= r.value < |s| && p(s[r.value])
    ensures r.Some? ==> forall i :: k <= i < r.value ==> !p(s[i])
    decreases |s| - k
  {
    if k == |s| then None
    else if p(s[k]) then Some(k)
    else FindFirst(s, p, k + 1)
  }

  /**
   * `currentMapData?.countries.find(...)`: the first record whose name matches
   * the clicked feature's, or nothing when no snapshot is loaded or none
   * matches (in which case no popup is shown).
   */
  function FindCountry(data: Option<MapData>, mapName: string): (r: Option<MapCountry>)
    ensures data.None? ==> r.None?
    ensures r.None? && data.Some? ==> forall c :: c in data.value.countries ==> !NamesMatch(mapName, c.country)
    ensures r.Some? ==> data.Some? && NamesMatch(mapName, r.value.country)
    ensures r.Some? ==> exists k :: 0 <= k < |data.value.countries| && data.value.countries[k] == r.value &&
                          forall i :: 0 <= i < k ==> !NamesMatch(mapName, data.value.countries[i].country)
  {
    if data.None? then None
    else
      var countries := data.value.countries;
      var matches := (c: MapCountry) => NamesMatch(mapName, c.country);
      match FindFirst(countries, matches, 0)
      case None =>
        assert forall c :: c in countries ==> !matches(c);
        None
      case Some(k) => Some(countries[k])
  }
}
