/**
 The Redis bucket of delivered-country counts and the script that adds one observation to it. A command
 of the script may fail; the commands that take an unfinished observation back are taken to succeed.
 */
module DeliveredObserver {
  import opened Outcomes
  import opened MapSums

  const OBSERVED_FIELD := "__delivered_observed"
  const MAX_COUNTER: int := 9_223_372_036_854_775_807
  const MAX_COUNTRIES := 677
  const BUCKET_SECONDS := 600

  predicate IsUpper(c: char) {
    'A' <= c <= 'Z'
  }

  /** Two capital letters, or the unknown country. */
  predicate IsCountry(s: string) {
    |s| == 2 && ((IsUpper(s[0]) && IsUpper(s[1])) || s == "??")
  }

  // ---------------------------------------------------------------------------------------------
  // Country texts
  // ---------------------------------------------------------------------------------------------

  /** What String.prototype.trim removes. */
  predicate IsSpace(c: char) {
    || '\U{0009}' <= c <= '\U{000D}' || c == ' ' || c == '\U{00A0}' || c == '\U{1680}'
    || '\U{2000}' <= c <= '\U{200A}' || c == '\U{2028}' || c == '\U{2029}' || c == '\U{202F}'
    || c == '\U{205F}' || c == '\U{3000}' || c == '\U{FEFF}'
  }

  function TrimStart(s: string): string {
    if s != [] && IsSpace(s[0]) then TrimStart(s[1..]) else s
  }

  function TrimEnd(s: string): string {
    if s != [] && IsSpace(s[|s| - 1]) then TrimEnd(s[..|s| - 1]) else s
  }

  /**
   String.prototype.toUpperCase on one character, as far as capital letters from A to Z come of it: the
   special casings of Unicode that do. Any other character stands for its own upper case, which has a
   character outside A to Z either way.
   */
  function UpperCase(c: char): string {
    if 'a' <= c <= 'z' then [(c as int - 'a' as int + 'A' as int) as char]
    else if c == '\U{00DF}' then "SS"
    else if c == '\U{0131}' then "I"
    else if c == '\U{017F}' then "S"
    else if c == '\U{FB00}' then "FF"
    else if c == '\U{FB01}' then "FI"
    else if c == '\U{FB02}' then "FL"
    else if c == '\U{FB03}' then "FFI"
    else if c == '\U{FB04}' then "FFL"
    else if c == '\U{FB05}' || c == '\U{FB06}' then "ST"
    else [c]
  }

  function ToUpperCase(s: string): string {
    if s == [] then [] else UpperCase(s[0]) + ToUpperCase(s[1..])
  }

  /** normalizeDeliveredCountry. */
  function NormalizeCountry(text: Option<string>): (country: string)
    ensures IsCountry(country)
  {
    var normalized := ToUpperCase(TrimEnd(TrimStart(text.GetOr(""))));
    if |normalized| == 2 && IsUpper(normalized[0]) && IsUpper(normalized[1]) then normalized else "??"
  }

  lemma TwoCharacters(a: char, b: char)
    ensures ToUpperCase([a, b]) == UpperCase(a) + UpperCase(b)
  {
    hide UpperCase;
    assert [a, b][1..] == [b] && [b][1..] == [];
    assert ToUpperCase([b]) == UpperCase(b) + [] == UpperCase(b);
  }

  predicate AreSpaces(s: string) {
    forall i | 0 <= i < |s| :: IsSpace(s[i])
  }

  predicate IsLetter(c: char) {
    'A' <= c <= 'Z' || 'a' <= c <= 'z'
  }

  lemma {:induction false} TrimsStart(spaces: string, s: string)
    requires AreSpaces(spaces) && (s != [] ==> !IsSpace(s[0]))
    ensures TrimStart(spaces + s) == s
  {
    hide IsSpace;
    if spaces == [] {
      assert spaces + s == s;
    } else {
      TrimsStart(spaces[1..], s);
      assert (spaces + s)[1..] == spaces[1..] + s;
    }
  }

  lemma {:induction false} TrimsEnd(s: string, spaces: string)
    requires AreSpaces(spaces) && (s != [] ==> !IsSpace(s[|s| - 1]))
    ensures TrimEnd(s + spaces) == s
  {
    hide IsSpace;
    if spaces == [] {
      assert s + spaces == s;
    } else {
      var n := |spaces| - 1;
      TrimsEnd(s, spaces[..n]);
      assert (s + spaces)[..|s| + n] == s + spaces[..n];
    }
  }

  /** Two letters in whatever case, between white space, give their capitals. */
  lemma PaddedCodesAreKept(before: string, a: char, b: char, after: string)
    requires AreSpaces(before) && AreSpaces(after) && IsLetter(a) && IsLetter(b)
    ensures NormalizeCountry(Some(before + [a, b] + after)) == UpperCase(a) + UpperCase(b)
  {
    TrimsStart(before, [a, b] + after);
    TrimsEnd([a, b], after);
    assert before + [a, b] + after == before + ([a, b] + after);
    TwoCharacters(a, b);
    hide TrimStart, TrimEnd, IsSpace, AreSpaces, ToUpperCase;
  }

  /** A country code stays what it is. */
  lemma CountriesAreKept(country: string)
    requires IsCountry(country)
    ensures NormalizeCountry(Some(country)) == country
  {
    TwoCharacters(country[0], country[1]);
    TrimsStart([], country);
    TrimsEnd(country, []);
    assert country == [country[0], country[1]] == [] + country == country + [];
    hide TrimStart, TrimEnd, ToUpperCase;
  }

  /** So does one character that is no letter of any code: a sharp s counts as SS, a ligature as FF, FI, FL or ST. */
  lemma OneCharacterIsACountry(c: char)
    ensures NormalizeCountry(Some([c])) != "??"
            <==> c in {'\U{00DF}', '\U{FB00}', '\U{FB01}', '\U{FB02}', '\U{FB05}', '\U{FB06}'}
  {
    assert IsSpace(c) ==> TrimStart([c]) == [] && TrimEnd([]) == [] && ToUpperCase([]) == [];
    if !IsSpace(c) {
      assert [c][1..] == [] && ToUpperCase([c]) == UpperCase(c) + [];
      assert ToUpperCase([c]) == UpperCase(c);
    }
  }

  /** deliveredCountryBucketStart: seconds, rounded down to ten minutes. */
  function BucketStart(atMs: int): (start: int)
    ensures start % BUCKET_SECONDS == 0
    ensures start * 1000 <= atMs < (start + BUCKET_SECONDS) * 1000
  {
    atMs / 1000 / BUCKET_SECONDS * BUCKET_SECONDS
  }

  function CountryField(country: string): string {
    "c:" + country
  }

  lemma CountryIsNotObserved(country: string)
    ensures CountryField(country) != OBSERVED_FIELD
  {
    assert CountryField(country)[0] == 'c' && OBSERVED_FIELD[0] == '_';
  }

  lemma FieldsAreDistinct(country: string, other: string)
    requires CountryField(country) == CountryField(other)
    ensures country == other
  {
    assert CountryField(country)[2..] == country && CountryField(other)[2..] == other;
  }

  /** Which command of one run of the script fails. */
  datatype Faults = Faults(onType: bool, onObserved: bool, onCountry: bool, onExpiry: bool)

  function Get(fields: map<string, int>, field: string): int {
    if field in fields then fields[field] else 0
  }

  function Countries(fields: map<string, int>): map<string, int> {
    fields - {OBSERVED_FIELD}
  }

  /** Positive country counts that add up to the observed count. */
  ghost predicate IsBucket(fields: map<string, int>) {
    && (forall f | f in Countries(fields) :: |f| == 4 && f == CountryField(f[2..]) && IsCountry(f[2..]))
    && (forall f | f in fields :: 0 < fields[f])
    && Get(fields, OBSERVED_FIELD) == Sum(Countries(fields))
  }

  function Bump(fields: map<string, int>, field: string): map<string, int> {
    fields[field := Get(fields, field) + 1]
  }

  /** What a successful observation leaves. */
  function Observed(fields: map<string, int>, country: string): map<string, int> {
    Bump(Bump(fields, OBSERVED_FIELD), CountryField(country))
  }

  predicate Succeeds(fields: map<string, int>, country: string, faults: Faults) {
    && !faults.onType && !faults.onObserved && !faults.onCountry && !faults.onExpiry
    && Get(fields, OBSERVED_FIELD) < MAX_COUNTER
    && Get(fields, CountryField(country)) < MAX_COUNTER
  }

  class DeliveredBucket {
    var fields: map<string, int>
    var expiresAtMs: Option<int>

    constructor ()
      ensures fields == map[] && expiresAtMs == None
    {
      fields, expiresAtMs := map[], None;
    }

    /** HINCRBY; `None` is an error reply. */
    method HIncrBy(field: string, delta: int, fails: bool) returns (r: Option<int>)
      modifies this`fields
      ensures r.Some? <==> !fails && -MAX_COUNTER - 1 <= Get(old(fields), field) + delta <= MAX_COUNTER
      ensures r.Some? ==> r.value == Get(old(fields), field) + delta && fields == old(fields)[field := r.value]
      ensures r.None? ==> fields == old(fields)
    {
      var value := Get(fields, field) + delta;
      if fails || value < -MAX_COUNTER - 1 || MAX_COUNTER < value {
        return None;
      }
      fields := fields[field := value];
      return Some(value);
    }

    method HDel(field: string)
      modifies this`fields
      ensures fields == old(fields) - {field}
    {
      fields := fields - {field};
    }

    /** HINCRBY -1, and HDEL once nothing is left. */
    method Undo(field: string, ghost before: map<string, int>)
      requires fields == Bump(before, field) && fields[field] <= MAX_COUNTER
      requires field in before ==> 0 < before[field]
      modifies this`fields
      ensures fields == before
    {
      var left := HIncrBy(field, -1, false);
      if left == Some(0) {
        HDel(field);
      }
    }

    /** The script: 1 and one more observation, or -2 and the bucket exactly as it was. */
    method Observe(country: string, expiryMs: int, faults: Faults) returns (code: int)
      requires IsCountry(country) && IsBucket(fields)
      modifies this
      ensures code == 1 <==> Succeeds(old(fields), country, faults)
      ensures code == 1 ==> fields == Observed(old(fields), country) && expiresAtMs == Some(expiryMs)
      ensures code == 1 ==> faults == Faults(false, false, false, false)
      ensures faults == Faults(false, false, false, false) && Get(old(fields), OBSERVED_FIELD) < MAX_COUNTER ==>
                code == 1 || MAX_COUNTER <= Get(old(fields), CountryField(country))
      ensures code != 1 ==> code == -2 && fields == old(fields) && expiresAtMs == old(expiresAtMs)
    {
      CountryIsNotObserved(country);
      hide IsCountry, Sum, CountryField;
      if faults.onType {
        return -2;
      }
      var field := CountryField(country);
      var observed := HIncrBy(OBSERVED_FIELD, 1, faults.onObserved);
      if observed.None? {
        return -2;
      }
      var counted := HIncrBy(field, 1, faults.onCountry);
      if counted.None? {
        Undo(OBSERVED_FIELD, old(fields));
        return -2;
      }
      if faults.onExpiry {
        Undo(field, Bump(old(fields), OBSERVED_FIELD));
        Undo(OBSERVED_FIELD, old(fields));
        return -2;
      }
      expiresAtMs := Some(expiryMs);
      return 1;
    }
  }

  // ---------------------------------------------------------------------------------------------
  // Runs
  // ---------------------------------------------------------------------------------------------

  datatype Call = Call(country: string, faults: Faults)

  function AfterCall(fields: map<string, int>, call: Call): map<string, int> {
    if Succeeds(fields, call.country, call.faults) then Observed(fields, call.country) else fields
  }

  /** The bucket after a history of calls, the last one at the end. */
  function AfterCalls(calls: seq<Call>): map<string, int> {
    if calls == [] then map[] else AfterCall(AfterCalls(calls[..|calls| - 1]), calls[|calls| - 1])
  }

  /** How many calls returned 1, for one country or for all. */
  function Accepted(calls: seq<Call>, country: Option<string>): nat {
    if calls == [] then 0
    else
      var front, call := calls[..|calls| - 1], calls[|calls| - 1];
      Accepted(front, country)
      + (if Succeeds(AfterCalls(front), call.country, call.faults) && (country.Some? ==> call.country == country.value)
         then 1 else 0)
  }

  lemma ObservedIsBucket(fields: map<string, int>, country: string)
    requires IsBucket(fields) && IsCountry(country)
    ensures IsBucket(Observed(fields, country))
  {
    hide IsCountry, Sum;
    var field := CountryField(country);
    CountryIsNotObserved(country);
    CountryIsCarried(country);
    BumpedCountries(fields, field);
    SumOfBumped(Countries(fields), field);
    hide CountryField;
  }

  lemma CountryIsCarried(country: string)
    requires IsCountry(country)
    ensures |country| == 2 && |CountryField(country)| == 4 && CountryField(country)[2..] == country
  {
  }

  lemma BumpedCountries(fields: map<string, int>, field: string)
    requires field != OBSERVED_FIELD
    ensures Countries(Bump(Bump(fields, OBSERVED_FIELD), field)) == Bump(Countries(fields), field)
  {
  }

  lemma SumOfBumped(fields: map<string, int>, field: string)
    ensures Sum(Bump(fields, field)) == Sum(fields) + 1
  {
    if field in fields {
      SumChange(fields, field, fields[field] + 1);
    } else {
      SumWith(fields, field, 1);
    }
  }

  /**
   Whatever fails: the observed count is the sum of the country counts and the number of calls that
   returned 1, and each country counts its own.
   */
  lemma {:induction false} ObservationsAreConserved(calls: seq<Call>, country: string)
    requires forall c | c in calls :: IsCountry(c.country)
    requires IsCountry(country)
    ensures IsBucket(AfterCalls(calls))
    ensures Get(AfterCalls(calls), OBSERVED_FIELD) == Accepted(calls, None)
    ensures Get(AfterCalls(calls), CountryField(country)) == Accepted(calls, Some(country))
  {
    hide IsBucket, IsCountry, CountryField, Succeeds;
    CountryIsNotObserved(country);
    if calls == [] {
      EmptyIsBucket();
    } else {
      var front, call := calls[..|calls| - 1], calls[|calls| - 1];
      var fields := AfterCalls(front);
      ObservationsAreConserved(front, country);
      CountryIsNotObserved(call.country);
      if CountryField(country) == CountryField(call.country) {
        FieldsAreDistinct(country, call.country);
      }
      if Succeeds(fields, call.country, call.faults) {
        ObservedIsBucket(fields, call.country);
      }
    }
  }

  lemma EmptyIsBucket()
    ensures IsBucket(map[])
  {
    assert Sum<string>(map[]) == 0;
  }

  // ---------------------------------------------------------------------------------------------
  // How many countries a bucket can hold
  // ---------------------------------------------------------------------------------------------

  function CountryIndex(country: string): (index: int)
    requires IsCountry(country)
    ensures 0 <= index < MAX_COUNTRIES
  {
    if country == "??" then 676 else (country[0] as int - 'A' as int) * 26 + (country[1] as int - 'A' as int)
  }

  lemma IndexIsUnique(a: string, b: string)
    requires IsCountry(a) && IsCountry(b) && CountryIndex(a) == CountryIndex(b)
    ensures a == b
  {
    if a != "??" && b != "??" {
      assert a[0] == b[0] && a[1] == b[1];
    }
  }

  lemma {:induction false} BoundedBySize(codes: set<string>, bound: nat)
    requires forall c | c in codes :: IsCountry(c) && CountryIndex(c) < bound
    ensures |codes| <= bound
  {
    if bound > 0 {
      if c :| c in codes && CountryIndex(c) == bound - 1 {
        forall d | d in codes - {c}
          ensures CountryIndex(d) < bound - 1
        {
          if CountryIndex(d) == bound - 1 {
            IndexIsUnique(c, d);
          }
        }
        BoundedBySize(codes - {c}, bound - 1);
      } else {
        BoundedBySize(codes, bound - 1);
      }
    }
  }

  function CodesOf(fields: map<string, int>): set<string>
    requires forall f | f in fields :: 2 <= |f|
  {
    set f | f in fields :: f[2..]
  }

  lemma {:induction false} CodesAreFields(fields: map<string, int>)
    requires forall f | f in fields :: |f| == 4 && f == CountryField(f[2..]) && IsCountry(f[2..])
    ensures |CodesOf(fields)| == |fields|
    decreases |fields|
  {
    if fields.Keys != {} {
      var f :| f in fields;
      var rest := fields - {f};
      assert rest.Keys == fields.Keys - {f};
      CodesAreFields(rest);
      forall g | g in rest
        ensures g[2..] != f[2..]
      {
        assert g == CountryField(g[2..]) && f == CountryField(f[2..]);
      }
      assert CodesOf(fields) == CodesOf(rest) + {f[2..]};
      assert |fields| == |rest| + 1;
    }
  }

  /** A bucket never has more than 677 country fields. */
  lemma BucketsAreSmall(fields: map<string, int>)
    requires IsBucket(fields)
    ensures |Countries(fields)| <= MAX_COUNTRIES
  {
    CodesAreFields(Countries(fields));
    BoundedBySize(CodesOf(Countries(fields)), MAX_COUNTRIES);
  }
}
