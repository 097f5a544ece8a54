/** Slugs: the base transform of a name, and the two loops that make it unique.

    Lower-casing is JavaScript's: besides A to Z, only the Kelvin sign and the
    dotted capital I have a lower-case form containing an ASCII letter; every
    other character ends up outside a to z and 0 to 9 either way. */
module Slugs {
  import opened Decimals
  import opened Wrappers

  // --------------------------------------------------------- base transform

  predicate IsAlnum(c: char) {
    'a' <= c <= 'z' || '0' <= c <= '9'
  }

  function LowerChar(c: char): string {
    if 'A' <= c <= 'Z' then [((c as int) + 32) as char]
    else if c == '\U{212A}' then "k"
    else if c == '\U{130}' then "i\U{307}"
    else [c]
  }

  function Lower(s: string): string {
    if s == [] then [] else LowerChar(s[0]) + Lower(s[1..])
  }

  /** Every maximal run of other characters becomes one dash. */
  function Dashed(s: string): string {
    if s == [] then []
    else if IsAlnum(s[0]) then [s[0]] + Dashed(s[1..])
    else if |s| > 1 && !IsAlnum(s[1]) then Dashed(s[1..])
    else ['-'] + Dashed(s[1..])
  }

  function TrimLeft(s: string): string {
    if s != [] && s[0] == '-' then TrimLeft(s[1..]) else s
  }

  function TrimRight(s: string): string {
    if s != [] && s[|s| - 1] == '-' then TrimRight(s[..|s| - 1]) else s
  }

  function BaseSlug(name: string): string {
    TrimRight(TrimLeft(Dashed(Lower(name))))
  }

  /** Alphanumeric characters and single dashes between them, or nothing. */
  ghost predicate IsSlug(s: string) {
    && NoDoubleDash(s)
    && (s != [] ==> s[0] != '-' && s[|s| - 1] != '-')
  }

  ghost predicate NoDoubleDash(s: string) {
    && (forall i :: 0 <= i < |s| ==> IsAlnum(s[i]) || s[i] == '-')
    && (forall i :: 0 <= i < |s| - 1 ==> s[i] != '-' || s[i + 1] != '-')
  }

  lemma {:induction false} DashedHasNoDoubleDash(s: string)
    ensures NoDoubleDash(Dashed(s))
    ensures s != [] ==> Dashed(s) != []
    ensures s != [] && IsAlnum(s[0]) ==> Dashed(s)[0] == s[0]
  {
    if s != [] {
      DashedHasNoDoubleDash(s[1..]);
    }
  }

  lemma {:induction false} TrimLeftWorks(s: string)
    requires NoDoubleDash(s)
    ensures var r := TrimLeft(s); NoDoubleDash(r) && (r != [] ==> r[0] != '-')
  {
  }

  lemma {:induction false} TrimRightWorks(s: string)
    requires NoDoubleDash(s) && (s != [] ==> s[0] != '-')
    ensures IsSlug(TrimRight(s))
  {
  }

  lemma {:induction false} DashedKeepsSlugs(s: string)
    requires NoDoubleDash(s)
    ensures Dashed(s) == s
  {
    if s != [] {
      DashedKeepsSlugs(s[1..]);
      assert s == [s[0]] + s[1..];
      assert |s| > 1 ==> s[0] != '-' || s[1] != '-';
    }
  }

  lemma {:induction false} LowerKeepsSlugs(s: string)
    requires forall i :: 0 <= i < |s| ==> IsAlnum(s[i]) || s[i] == '-'
    ensures Lower(s) == s
  {
    if s != [] {
      LowerKeepsSlugs(s[1..]);
      assert s == [s[0]] + s[1..];
    }
  }

  /** The maximal alphanumeric runs, in order. */
  function Words(s: string): seq<string> {
    if s == [] then []
    else
      var rest := Words(s[1..]);
      if !IsAlnum(s[0]) then rest
      else if |s| > 1 && IsAlnum(s[1]) && rest != [] then [[s[0]] + rest[0]] + rest[1..]
      else [[s[0]]] + rest
  }

  lemma {:induction false} DashedKeepsWords(s: string)
    ensures Words(Dashed(s)) == Words(s)
  {
    if s != [] {
      var rest := Dashed(s[1..]);
      DashedKeepsWords(s[1..]);
      DashedHasNoDoubleDash(s[1..]);
      assert ([s[0]] + rest)[1..] == rest && (['-'] + rest)[1..] == rest;
      if IsAlnum(s[0]) && |s| > 1 {
        DashStarts(s[1..]);
      }
    }
  }

  lemma {:induction false} DashStarts(s: string)
    requires s != []
    ensures Dashed(s) != [] && (IsAlnum(Dashed(s)[0]) <==> IsAlnum(s[0]))
  {
    if !IsAlnum(s[0]) && |s| > 1 && !IsAlnum(s[1]) {
      DashStarts(s[1..]);
    }
  }

  lemma {:induction false} TrimLeftKeepsWords(s: string)
    ensures Words(TrimLeft(s)) == Words(s)
  {
    if s != [] && s[0] == '-' {
      TrimLeftKeepsWords(s[1..]);
    }
  }

  lemma {:induction false} FinalDashKeepsWords(s: string)
    ensures Words(s + "-") == Words(s)
  {
    if s != [] {
      FinalDashKeepsWords(s[1..]);
      assert (s + "-")[1..] == s[1..] + "-";
    }
  }

  lemma {:induction false} TrimRightKeepsWords(s: string)
    ensures Words(TrimRight(s)) == Words(s)
  {
    if s != [] && s[|s| - 1] == '-' {
      TrimRightKeepsWords(s[..|s| - 1]);
      FinalDashKeepsWords(s[..|s| - 1]);
      assert s == s[..|s| - 1] + "-";
    }
  }

  function Joined(words: seq<string>): string {
    if words == [] then [] else if |words| == 1 then words[0] else words[0] + "-" + Joined(words[1..])
  }

  lemma {:induction false} SlugIsItsWords(s: string)
    requires NoDoubleDash(s) && (s != [] ==> s[|s| - 1] != '-')
    ensures s != [] ==> Words(s) != [] && Words(s)[0] != []
    ensures s != [] && s[0] != '-' ==> Joined(Words(s)) == s
    ensures s != [] && s[0] == '-' ==> |s| > 1 && ['-'] + Joined(Words(s)) == s
  {
    if |s| > 1 {
      var rest := s[1..];
      SlugIsItsWords(rest);
      assert s == [s[0]] + rest;
      assert s[0] != '-' || s[1] != '-';
      if s[0] != '-' {
        var w := Words(rest);
        if s[1] != '-' {
          assert ([[s[0]] + w[0]] + w[1..])[1..] == w[1..];
        } else {
          assert ([[s[0]]] + w)[1..] == w;
        }
      }
    }
  }

  /** The base slug is a slug, leaves slugs alone (so the transform is
      idempotent), and consists of the lower-cased name's alphanumeric words
      joined by single dashes. */
  lemma BaseSlugIsNormalForm(name: string)
    ensures IsSlug(BaseSlug(name))
    ensures BaseSlug(BaseSlug(name)) == BaseSlug(name)
    ensures BaseSlug(name) == Joined(Words(Lower(name)))
    ensures BaseSlug(name) == [] <==> Words(Lower(name)) == []
  {
    var dashed := Dashed(Lower(name));
    DashedHasNoDoubleDash(Lower(name));
    TrimLeftWorks(dashed);
    TrimRightWorks(TrimLeft(dashed));
    SlugIsFixed(BaseSlug(name));
    DashedKeepsWords(Lower(name));
    TrimLeftKeepsWords(dashed);
    TrimRightKeepsWords(TrimLeft(dashed));
    SlugIsItsWords(BaseSlug(name));
  }

  lemma SlugIsFixed(s: string)
    requires IsSlug(s)
    ensures BaseSlug(s) == s
  {
    LowerKeepsSlugs(s);
    DashedKeepsSlugs(s);
  }

  /** On ASCII text lower-casing is letter by letter, and is undone by nothing but
      the case: letters A to Z move by 32, everything else stays. */
  lemma {:induction false} AsciiIsLowered(s: string, i: nat)
    requires i < |s| && forall k :: 0 <= k < |s| ==> s[k] < '\U{80}'
    ensures |Lower(s)| == |s|
    ensures Lower(s)[i] as int == s[i] as int + if 'A' <= s[i] <= 'Z' then 32 else 0
  {
    if |s| > 1 {
      AsciiIsLowered(s[1..], if i > 0 then i - 1 else 0);
    }
  }

  /** Only these characters ever appear in a base slug. */
  lemma SlugCharacters(name: string, i: nat)
    requires i < |BaseSlug(name)|
    ensures var c := BaseSlug(name)[i]; 'a' <= c <= 'z' || '0' <= c <= '9' || c == '-'
  {
    BaseSlugIsNormalForm(name);
  }

  /** And small letters and digits all survive. */
  lemma PlainWordIsKept(word: string)
    requires forall i :: 0 <= i < |word| ==> 'a' <= word[i] <= 'z' || '0' <= word[i] <= '9'
    ensures BaseSlug(word) == word
  {
    assert forall i :: 0 <= i < |word| ==> IsAlnum(word[i]);
    SlugIsFixed(word);
  }

  /** The two other characters that lower-case to an ASCII letter. */
  lemma KelvinAndDottedI()
    ensures Lower("\U{212A}") == "k" && Lower("\U{130}") == "i\U{307}"
  {
  }

  // -------------------------------------------------------------- candidates

  /** The base itself, then base-1, base-2, and so on. */
  function Candidate(base: string, n: nat): string {
    if n == 0 then base else base + "-" + Decimal(n)
  }

  lemma CandidatesDiffer(base: string, m: nat, n: nat)
    requires Candidate(base, m) == Candidate(base, n)
    ensures m == n
  {
    if m > 0 && n > 0 {
      var k := |base| + 1;
      assert Candidate(base, m)[k..] == Decimal(m) && Candidate(base, n)[k..] == Decimal(n);
      DecimalReadsBack(m);
      DecimalReadsBack(n);
    }
  }

  lemma DigitsMayFollow(base: string, digits: string)
    requires IsSlug(base) && base != []
    requires digits != [] && forall i :: 0 <= i < |digits| ==> '0' <= digits[i] <= '9'
    ensures IsSlug(base + "-" + digits)
  {
  }

  /** A candidate of a slug is a slug again: the base, a dash, and the counter in
      decimal. */
  lemma CandidateIsSlug(base: string, n: nat)
    requires IsSlug(base) && base != [] && n > 0
    ensures var c, k := Candidate(base, n), |base|;
            && IsSlug(c) && k + 1 < |c| && c[..k] == base && c[k] == '-' && NumberOf(c[k + 1..]) == n
  {
    DecimalReadsBack(n);
    var digits := Decimal(n);
    DigitsMayFollow(base, digits);
    var c := base + "-" + digits;
    assert c[|base| + 1..] == digits;
  }

  function Candidates(base: string, n: nat): set<string> {
    if n == 0 then {} else Candidates(base, n - 1) + {Candidate(base, n - 1)}
  }

  lemma {:induction false} CandidateIndex(base: string, n: nat, s: string) returns (k: nat)
    requires s in Candidates(base, n)
    ensures k < n && s == Candidate(base, k)
  {
    if s == Candidate(base, n - 1) {
      k := n - 1;
    } else {
      k := CandidateIndex(base, n - 1, s);
    }
  }

  lemma {:induction false} CandidatesCount(base: string, n: nat)
    ensures |Candidates(base, n)| == n
  {
    if n > 0 {
      CandidatesCount(base, n - 1);
      if Candidate(base, n - 1) in Candidates(base, n - 1) {
        var k := CandidateIndex(base, n - 1, Candidate(base, n - 1));
        CandidatesDiffer(base, n - 1, k);
      }
    }
  }

  /** Pigeonhole: n candidates all taken need n taken slugs. */
  lemma TakenCandidatesFit(base: string, n: nat, taken: set<string>)
    requires forall k :: 0 <= k < n ==> Candidate(base, k) in taken
    ensures n <= |taken|
  {
    CandidatesCount(base, n);
    forall s | s in Candidates(base, n) ensures s in taken {
      var k := CandidateIndex(base, n, s);
    }
    SubsetIsSmaller(Candidates(base, n), taken);
  }

  lemma SubsetIsSmaller(a: set<string>, b: set<string>)
    requires a <= b
    ensures |a| <= |b|
  {
    assert b == a + (b - a);
  }

  ghost predicate FirstFree(base: string, taken: set<string>, slug: string, n: nat) {
    && slug == Candidate(base, n) && slug !in taken
    && forall k :: 0 <= k < n ==> Candidate(base, k) in taken
  }

  // --------------------------------------------------------------- the hooks

  datatype Error = EmptyBase | TooManyCollisions | NothingToGoBy

  /** The tenant loop: at most base and base-1 to base-99. */
  method UniqueTenantSlug(base: string, taken: set<string>) returns (r: Result<string, Error>)
    ensures base == [] ==> r == Failure(EmptyBase)
    ensures base != [] ==> (r.Failure? <==> forall k :: 0 <= k < 100 ==> Candidate(base, k) in taken)
    ensures base != [] && r.Failure? ==> r.error == TooManyCollisions
    ensures r.Success? ==> exists n :: 0 <= n < 100 && FirstFree(base, taken, r.value, n)
  {
    if base == [] {
      return Failure(EmptyBase);
    }
    var slug := base;
    var counter := 1;
    while slug in taken
      invariant 1 <= counter <= 100
      invariant slug == Candidate(base, counter - 1)
      invariant forall k :: 0 <= k < counter - 1 ==> Candidate(base, k) in taken
      decreases 100 - counter
    {
      slug := base + "-" + Decimal(counter);
      counter := counter + 1;
      if counter > 100 {
        return Failure(TooManyCollisions);
      }
    }
    assert FirstFree(base, taken, slug, counter - 1);
    r := Success(slug);
  }

  /** The location loop has no cap, and still stops within one probe more than
      there are taken slugs. */
  method UniqueLocationSlug(base: string, taken: set<string>) returns (slug: string, probes: nat)
    ensures 1 <= probes <= |taken| + 1
    ensures FirstFree(base, taken, slug, probes - 1)
  {
    slug := base;
    probes := 1;
    while slug in taken
      invariant 1 <= probes <= |taken| + 1
      invariant slug == Candidate(base, probes - 1)
      invariant forall k :: 0 <= k < probes - 1 ==> Candidate(base, k) in taken
      decreases |taken| + 1 - probes
    {
      TakenCandidatesFit(base, probes, taken);
      slug := base + "-" + Decimal(probes);
      probes := probes + 1;
    }
  }

  /** The tenant document's slug and name, as its pre-save hook treats them. */
  class Tenant {
    var slug: string
    const name: string

    constructor (slug: string, name: string)
      ensures this.slug == slug && this.name == name
    {
      this.slug, this.name := slug, name;
    }

    method PreSave(taken: set<string>) returns (failure: Option<Error>)
      modifies this
      ensures old(slug) != [] ==> failure == None && slug == old(slug)
      ensures old(slug) == [] && name == [] ==> failure == Some(NothingToGoBy)
      ensures failure.Some? ==> slug == old(slug)
      ensures failure.None? ==> slug != []
      ensures failure.None? && old(slug) == [] ==>
                slug !in taken && exists n :: 0 <= n < 100 && FirstFree(BaseSlug(name), taken, slug, n)
      ensures old(slug) == [] && name != [] ==>
                (failure.Some? <==>
                   BaseSlug(name) == [] || forall k :: 0 <= k < 100 ==> Candidate(BaseSlug(name), k) in taken)
    {
      if slug == [] && name != [] {
        var r := UniqueTenantSlug(BaseSlug(name), taken);
        if r.Failure? {
          return Some(r.error);
        }
        slug := r.value;
      } else if slug == [] {
        return Some(NothingToGoBy);
      }
      failure := None;
    }
  }
}
