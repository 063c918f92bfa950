/** Marketplace public keys: a name reduced to lowercase words joined by hyphens, and a random suffix. */
module PublicKey {
  import opened Wrappers
  import opened Text
  import opened Base64

  const MAX_KEY := 128
  const SUFFIX_BYTES := 4
  const SUFFIX_LENGTH := 8
  const MAX_NAME := 119

  predicate LowerAlnum(c: char) { 'a' <= c <= 'z' || '0' <= c <= '9' }

  predicate Upper(c: char) { 'A' <= c <= 'Z' }

  predicate Alnum(c: char) { Upper(c) || LowerAlnum(c) }

  function Lower(c: char): char
    requires Alnum(c)
  {
    if Upper(c) then (c as int + 32) as char else c
  }

  // ---- The pattern

  datatype State = Begin | InWord | AfterHyphen | Rejected

  function Next(state: State, c: char): State {
    if state.Rejected? then Rejected
    else if LowerAlnum(c) then InWord
    else if c == '-' && state.InWord? then AfterHyphen else Rejected
  }

  /** Runs the automaton of `[a-z0-9]+(?:-[a-z0-9]+)*` over a string. */
  function Scan(s: string): State { if s == "" then Begin else Next(Scan(s[..|s| - 1]), s[|s| - 1]) }

  /** One or more lowercase words, joined by single hyphens. */
  predicate Kebab(s: string) { Scan(s).InWord? }

  predicate HexLower(c: char) { '0' <= c <= '9' || 'a' <= c <= 'f' }

  /** The pattern of a key: words, a hyphen and eight hexadecimal digits. */
  predicate Matches(raw: string) {
    |raw| > SUFFIX_LENGTH && Kebab(raw[..|raw| - SUFFIX_LENGTH - 1]) && raw[|raw| - SUFFIX_LENGTH - 1] == '-' &&
    forall c | c in raw[|raw| - SUFFIX_LENGTH..] :: HexLower(c)
  }

  function ParseKey(raw: string): Option<string> {
    if raw == "" || |raw| > MAX_KEY || !Matches(raw) then None else Some(raw)
  }

  // ---- Normalising a name

  /** The words so far, and whether something stands between them and what comes next. */
  datatype Slug = Slug(text: string, separator: bool)

  function Extend(slug: Slug, c: char): Slug {
    if Alnum(c) then Slug(slug.text + (if slug.separator && slug.text != "" then "-" else "") + [Lower(c)], false)
    else Slug(slug.text, slug.text != "")
  }

  /** The name in full, however long. */
  function Reduce(name: string): Slug {
    if name == "" then Slug("", false) else Extend(Reduce(name[..|name| - 1]), name[|name| - 1])
  }

  lemma ScanAppend(s: string, c: char)
    ensures Scan(s + [c]) == Next(Scan(s), c)
  {
    assert (s + [c])[..|s|] == s;
  }

  lemma ReduceAppend(name: string, c: char)
    ensures Reduce(name + [c]) == Extend(Reduce(name), c)
  {
    assert (name + [c])[..|name|] == name;
  }

  predicate Bears(name: string) { exists c | c in name :: Alnum(c) }

  predicate SlugOk(slug: Slug) { if slug.text == "" then !slug.separator else Kebab(slug.text) }

  lemma AppendWordChar(text: string, c: char, separator: bool)
    requires (if text == "" then !separator else Kebab(text)) && LowerAlnum(c)
    ensures Kebab(text + (if separator then "-" else "") + [c])
  {
    if separator {
      ScanAppend(text, '-');
      ScanAppend(text + ['-'], c);
      assert text + "-" + [c] == text + ['-'] + [c];
    } else {
      ScanAppend(text, c);
      assert text + "" + [c] == text + [c];
    }
  }

  lemma ExtendKeeps(slug: Slug, c: char)
    requires SlugOk(slug)
    ensures SlugOk(Extend(slug, c)) && (Extend(slug, c).text == "" <==> slug.text == "" && !Alnum(c))
  {
    if Alnum(c) { AppendWordChar(slug.text, Lower(c), slug.separator && slug.text != ""); }
  }

  /** The reduced name is empty exactly when the name has no letter or digit, and otherwise it is words
      joined by single hyphens. */
  lemma {:induction false} Reduced(name: string)
    ensures SlugOk(Reduce(name)) && (Reduce(name).text == "" <==> !Bears(name))
  {
    if name != "" {
      var shorter, last := name[..|name| - 1], name[|name| - 1];
      Reduced(shorter);
      ExtendKeeps(Reduce(shorter), last);
      assert name == shorter + [last];
    }
  }

  /** What the automaton has seen, the reduction has kept, but for a hyphen at the end. */
  ghost predicate Keeps(s: string) {
    match Scan(s)
    case Begin => s == "" && Reduce(s) == Slug("", false)
    case InWord => s != "" && Reduce(s) == Slug(s, false)
    case AfterHyphen => |s| > 1 && s[|s| - 1] == '-' && Reduce(s) == Slug(s[..|s| - 1], true)
    case Rejected => true
  }

  lemma KeepsAppend(s: string, c: char)
    requires Keeps(s)
    ensures Keeps(s + [c])
  {
    ScanAppend(s, c);
    ReduceAppend(s, c);
    assert (s + [c])[..|s|] == s;
    if Scan(s).AfterHyphen? && LowerAlnum(c) {
      var word := s[..|s| - 1];
      assert word + "-" + [c] == s + [c];
    } else if LowerAlnum(c) {
      assert s + "" + [c] == s + [c];
    }
  }

  /** Reducing leaves alone exactly what is already reduced. */
  lemma {:induction false} ReduceKebab(s: string)
    ensures Keeps(s)
  {
    if s != "" {
      var shorter, last := s[..|s| - 1], s[|s| - 1];
      ReduceKebab(shorter);
      KeepsAppend(shorter, last);
      assert s == shorter + [last];
    }
  }

  lemma FixedExactly(s: string)
    ensures Reduce(s).text == s <==> s == "" || Kebab(s)
  {
    Reduced(s);
    ReduceKebab(s);
  }

  lemma {:induction false} ReduceGrows(name: string, n: nat)
    requires n <= |name|
    ensures Reduce(name[..n]).text <= Reduce(name).text
    decreases |name| - n
  {
    if n == |name| {
      assert name[..n] == name;
    } else {
      ReduceGrows(name, n + 1);
      assert name[..n + 1][..n] == name[..n];
      assert Reduce(name[..n]).text <= Reduce(name[..n + 1]).text;
    }
  }

  /** Reduces a name until the result is long enough. One step may write a hyphen and a letter, so the
      result can be one longer than the limit. */
  method NormalizeName(name: string) returns (normalized: string)
    ensures normalized == Normalized(name)
  {
    normalized := "";
    var separator := false;
    var n := 0;
    while n < |name| && |normalized| < MAX_NAME
      invariant n <= |name| && Reduce(name[..n]) == Slug(normalized, separator)
      invariant Normalized(name) == NormalizedFrom(name, n)
    {
      ReduceAppend(name[..n], name[n]);
      assert name[..n + 1] == name[..n] + [name[n]];
      var c := name[n];
      if Upper(c) {
        if separator && |normalized| > 0 {
          normalized := normalized + "-";
        }
        normalized := normalized + [(c as int + ('a' as int - 'A' as int)) as char];
        separator := false;
      } else if LowerAlnum(c) {
        if separator && |normalized| > 0 {
          normalized := normalized + "-";
        }
        normalized := normalized + [c];
        separator := false;
      } else {
        separator := |normalized| > 0;
      }
      n := n + 1;
    }
  }

  /** What reducing a prefix gives, from the first prefix on that is long enough. */
  function NormalizedFrom(name: string, n: nat): string
    requires n <= |name|
    decreases |name| - n
  {
    if n == |name| || |Reduce(name[..n]).text| >= MAX_NAME then Reduce(name[..n]).text else NormalizedFrom(name, n + 1)
  }

  function Normalized(name: string): string { NormalizedFrom(name, 0) }

  lemma {:induction false} NormalizedAt(name: string, n: nat) returns (m: nat)
    requires n <= |name| && |Reduce(name[..n]).text| <= MAX_NAME + 1
    ensures n <= m <= |name| && NormalizedFrom(name, n) == Reduce(name[..m]).text &&
            |NormalizedFrom(name, n)| <= MAX_NAME + 1
    ensures m == |name| || |NormalizedFrom(name, n)| >= MAX_NAME
    decreases |name| - n
  {
    if n == |name| || |Reduce(name[..n]).text| >= MAX_NAME {
      m := n;
    } else {
      ReduceAppend(name[..n], name[n]);
      assert name[..n + 1] == name[..n] + [name[n]];
      m := NormalizedAt(name, n + 1);
    }
  }

  /** The result starts the reduced name, is all of it when it is short, and never exceeds the limit by
      more than one. */
  lemma NormalizedMeans(name: string)
    ensures var s := Normalized(name);
            s <= Reduce(name).text && |s| <= MAX_NAME + 1 && (|s| < MAX_NAME ==> s == Reduce(name).text) &&
            (s == "" <==> !Bears(name)) && (s != "" ==> Kebab(s))
  {
    assert name[..0] == "";
    var m := NormalizedAt(name, 0);
    ReduceGrows(name, m);
    Reduced(name[..m]);
    Reduced(name);
    assert name[..|name|] == name;
  }

  /** Normalising a normalised name changes nothing. */
  lemma {:induction false} NormalizedIsFixed(s: string, n: nat)
    requires Kebab(s) && n <= |s| && |s| <= MAX_NAME + 1 && (|s| == MAX_NAME + 1 ==> s[MAX_NAME - 1] == '-')
    ensures NormalizedFrom(s, n) == s
    decreases |s| - n
  {
    PrefixReduced(s, n);
    if n == |s| {
      assert s[..n] == s;
    } else {
      NormalizedIsFixed(s, n + 1);
    }
  }

  /** Before the end, a reduced prefix has not reached the limit. */
  lemma PrefixReduced(s: string, n: nat)
    requires Kebab(s) && n <= |s| && |s| <= MAX_NAME + 1 && (|s| == MAX_NAME + 1 ==> s[MAX_NAME - 1] == '-')
    ensures if n == |s| then Reduce(s[..n]).text == s else |Reduce(s[..n]).text| < MAX_NAME
  {
    ReduceKebab(s[..n]);
    if n == |s| {
      assert s[..n] == s;
    } else {
      PrefixScans(s, n);
      if n == MAX_NAME { assert s[..n][..n - 1] == s[..n - 1]; }
    }
  }

  lemma {:induction false} PrefixScans(s: string, n: nat)
    requires !Scan(s).Rejected? && n <= |s|
    ensures !Scan(s[..n]).Rejected?
    decreases |s|
  {
    if n == |s| {
      assert s[..n] == s;
    } else {
      PrefixScans(s[..|s| - 1], n);
      assert s[..|s| - 1][..n] == s[..n];
    }
  }

  /** A result that is one too long has a hyphen before its last letter. */
  lemma {:induction false} OvershootIsHyphen(name: string, n: nat)
    requires n <= |name| && |Reduce(name[..n]).text| <= MAX_NAME + 1
    requires |Reduce(name[..n]).text| == MAX_NAME + 1 ==> Reduce(name[..n]).text[MAX_NAME - 1] == '-'
    ensures var s := NormalizedFrom(name, n); |s| == MAX_NAME + 1 ==> s[MAX_NAME - 1] == '-'
    decreases |name| - n
  {
    if n < |name| && |Reduce(name[..n]).text| < MAX_NAME {
      ReduceAppend(name[..n], name[n]);
      assert name[..n + 1] == name[..n] + [name[n]];
      OvershootIsHyphen(name, n + 1);
    }
  }

  lemma NormalizingTwice(name: string)
    ensures Normalized(Normalized(name)) == Normalized(name)
  {
    NormalizedMeans(name);
    var s := Normalized(name);
    assert name[..0] == "" && s[..0] == "";
    OvershootIsHyphen(name, 0);
    if s != "" {
      NormalizedIsFixed(s, 0);
    }
  }

  // ---- Keys

  function HexBytes(bytes: seq<byte>): (s: string)
    ensures |s| == 2 * |bytes| && forall i :: 0 <= i < |s| ==> HexLower(s[i])
  {
    if bytes == [] then "" else [HexDigit(bytes[0] as int / 16), HexDigit(bytes[0] as int % 16)] + HexBytes(bytes[1..])
  }

  function TrimHyphen(s: string): string
    decreases |s|
  {
    if s != "" && s[0] == '-' then TrimHyphen(s[1..])
    else if s != "" && s[|s| - 1] == '-' then TrimHyphen(s[..|s| - 1]) else s
  }

  /** The name part of a key. */
  function NamePart(name: string): string {
    var s := Normalized(name);
    if |s| > MAX_NAME then TrimHyphen(s[..MAX_NAME]) else s
  }

  lemma {:induction false} KebabStart(s: string)
    requires Scan(s).InWord? || Scan(s).AfterHyphen?
    ensures s != "" && s[0] != '-' && (Scan(s).AfterHyphen? ==> |s| > 1 && s[|s| - 1] == '-' && Kebab(s[..|s| - 1]))
    ensures Scan(s).InWord? ==> s[|s| - 1] != '-'
  {
    if |s| > 1 && !Scan(s[..|s| - 1]).Begin? {
      KebabStart(s[..|s| - 1]);
    } else if |s| > 1 {
      BeginIsEmpty(s[..|s| - 1]);
    }
  }

  lemma BeginIsEmpty(s: string)
    ensures Scan(s).Begin? <==> s == ""
  {
  }

  /** The name part of a key is words joined by hyphens, within its limit, also when one step overshot it. */
  lemma NamePartFits(name: string)
    requires Bears(name)
    ensures Kebab(NamePart(name)) && |NamePart(name)| <= MAX_NAME && NamePart(name) <= Reduce(name).text
  {
    NormalizedMeans(name);
    var s := Normalized(name);
    if |s| > MAX_NAME {
      var cut := s[..MAX_NAME];
      PrefixScans(s, MAX_NAME);
      BeginIsEmpty(cut);
      KebabStart(cut);
      if Scan(cut).AfterHyphen? {
        var trimmed := cut[..|cut| - 1];
        KebabStart(trimmed);
        assert TrimHyphen(trimmed) == trimmed;
        assert TrimHyphen(cut) == TrimHyphen(trimmed);
      } else {
        assert TrimHyphen(cut) == cut;
      }
    }
  }

  /** Makes a key of a name and random bytes. It fails only for a name without a letter or digit, or when
      the random source gives too little; what it makes is always accepted. */
  method NewKey(name: string, random: seq<byte>) returns (key: Option<string>)
    ensures key.Some? <==> Bears(name) && |random| >= SUFFIX_BYTES
    ensures key.Some? ==>
      key.value == NamePart(name) + "-" + HexBytes(random[..SUFFIX_BYTES]) && ParseKey(key.value) == key &&
          |key.value| <= MAX_KEY
  {
    NormalizedMeans(name);
    var normalized := NormalizeName(name);
    if normalized == "" {
      return None;
    }
    if |normalized| > MAX_NAME {
      normalized := TrimHyphen(normalized[..MAX_NAME]);
    }
    var suffix := new byte[SUFFIX_BYTES];
    if |random| < suffix.Length {
      return None;
    }
    for n := 0 to suffix.Length
      invariant suffix[..n] == random[..n]
    {
      suffix[n] := random[n];
    }
    assert suffix[..] == random[..SUFFIX_BYTES];
    NamePartFits(name);
    KeyMatches(normalized, HexBytes(suffix[..]));
    key := ParseKey(normalized + "-" + HexBytes(suffix[..]));
  }

  lemma KeyMatches(body: string, suffix: string)
    requires Kebab(body) && |body| <= MAX_NAME && |suffix| == SUFFIX_LENGTH && forall i ::
             0 <= i < |suffix| ==> HexLower(suffix[i])
    ensures ParseKey(body + "-" + suffix) == Some(body + "-" + suffix) && |body + "-" + suffix| <= MAX_KEY
  {
    var raw := body + "-" + suffix;
    assert raw[..|raw| - SUFFIX_LENGTH - 1] == body;
    assert raw[|raw| - SUFFIX_LENGTH..] == suffix;
  }

  lemma {:induction false} HexIsInjective(a: seq<byte>, b: seq<byte>)
    requires |a| == |b| && HexBytes(a) == HexBytes(b)
    ensures a == b
  {
    if a != [] {
      assert HexBytes(a)[0] == HexBytes(b)[0] && HexBytes(a)[1] == HexBytes(b)[1];
      assert HexBytes(a)[2..] == HexBytes(a[1..]) && HexBytes(b)[2..] == HexBytes(b[1..]);
      HexIsInjective(a[1..], b[1..]);
      assert a[0] as int == a[0] as int / 16 * 16 + a[0] as int % 16;
      assert b[0] as int == b[0] as int / 16 * 16 + b[0] as int % 16;
      assert a == [a[0]] + a[1..] && b == [b[0]] + b[1..];
    }
  }

  /** Two keys are equal exactly when their name parts and their random bytes are. */
  lemma KeysDiffer(first: string, a: seq<byte>, second: string, b: seq<byte>)
    requires |a| == SUFFIX_BYTES == |b|
    ensures NamePart(first) + "-" + HexBytes(a) == NamePart(second) + "-" + HexBytes(b) <==>
            NamePart(first) == NamePart(second) && a == b
  {
    var k, l := NamePart(first) + "-" + HexBytes(a), NamePart(second) + "-" + HexBytes(b);
    if k == l {
      assert k[..|k| - SUFFIX_LENGTH - 1] == NamePart(first) && l[..|l| - SUFFIX_LENGTH - 1] == NamePart(second);
      assert k[|k| - SUFFIX_LENGTH..] == HexBytes(a) && l[|l| - SUFFIX_LENGTH..] == HexBytes(b);
      HexIsInjective(a, b);
    }
  }
}
