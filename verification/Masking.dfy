/** Masking of payload values for the audit view.

    A character stands for one UTF-16 code unit. `toLowerCase` is modelled on ASCII letters, which decides
    the three key tests exactly as the full mapping does: the only other character whose lower case has a letter
    of "email", "phone" or "name" in it is U+0130, and there a combining dot follows the letter. */
module Masking {
  import opened Json

  // ---------------------------------------------------------------- keys

  function Lower(s: string): (r: string)
    ensures |r| == |s|
  {
    seq(|s|, i requires 0 <= i < |s| => if 'A' <= s[i] <= 'Z' then (s[i] as int + 32) as char else s[i])
  }

  /** The letters A to Z become a to z, every other character stays. */
  lemma LowerSays(s: string, i: nat, k: nat)
    requires i < |s| && k < 26
    ensures s[i] == "ABCDEFGHIJKLMNOPQRSTUVWXYZ"[k] ==> Lower(s)[i] == "abcdefghijklmnopqrstuvwxyz"[k]
    ensures s[i] !in "ABCDEFGHIJKLMNOPQRSTUVWXYZ" ==> Lower(s)[i] == s[i]
  {
    var upper := "ABCDEFGHIJKLMNOPQRSTUVWXYZ";
    if 'A' <= s[i] <= 'Z' { assert upper[s[i] as int - 'A' as int] == s[i]; }
  }

  lemma LowerTwice(s: string)
    ensures Lower(Lower(s)) == Lower(s)
  {
  }

  predicate OccursAt(s: string, part: string, i: nat) {
    i + |part| <= |s| && s[i..i + |part|] == part
  }

  predicate Includes(s: string, part: string) {
    exists i | 0 <= i <= |s| :: OccursAt(s, part, i)
  }

  // ---------------------------------------------------------------- phone numbers

  predicate Digit(c: char) { '0' <= c <= '9' }

  /** `\D*\d` matches from p up to and including q. */
  ghost predicate NextDigit(s: string, p: nat, q: nat) {
    p <= q < |s| && Digit(s[q]) && forall i | p <= i < q :: !Digit(s[i])
  }

  /** The lookahead `(?=(?:\D*\d){n})` at position p: n times some non-digits and then one digit. */
  ghost predicate Lookahead(s: string, p: nat, n: nat)
    decreases n
  {
    n == 0 ||
    exists q: nat :: NextDigit(s, p, q) && Lookahead(s, q + 1, n - 1)
  }

  /** The digits of s from position p on. */
  function DigitsFrom(s: string, p: nat): nat
    decreases |s| - p
  {
    if p >= |s| then 0 else (if Digit(s[p]) then 1 else 0) + DigitsFrom(s, p + 1)
  }

  /** The first digit at or after p, if there is one. */
  lemma {:induction false} FirstDigit(s: string, p: nat) returns (q: nat)
    requires DigitsFrom(s, p) > 0
    ensures NextDigit(s, p, q)
    ensures DigitsFrom(s, p) == 1 + DigitsFrom(s, q + 1)
    decreases |s| - p
  {
    if Digit(s[p]) { q := p; } else { q := FirstDigit(s, p + 1); }
  }

  lemma {:induction false} DigitsAfterGap(s: string, p: nat, q: nat)
    requires NextDigit(s, p, q)
    ensures DigitsFrom(s, p) == 1 + DigitsFrom(s, q + 1)
    decreases q - p
  {
    if p < q { DigitsAfterGap(s, p + 1, q); }
  }

  /** The lookahead asks exactly for n digits further on. */
  lemma {:induction false} LookaheadCounts(s: string, p: nat, n: nat)
    ensures Lookahead(s, p, n) <==> DigitsFrom(s, p) >= n
    decreases n
  {
    if n > 0 {
      if Lookahead(s, p, n) {
        var q: nat :| NextDigit(s, p, q) && Lookahead(s, q + 1, n - 1);
        DigitsAfterGap(s, p, q);
        LookaheadCounts(s, q + 1, n - 1);
      }
      if DigitsFrom(s, p) >= n {
        var q := FirstDigit(s, p);
        LookaheadCounts(s, q + 1, n - 1);
      }
    }
  }

  /** What the regular expression `\d(?=(?:\D*\d){4})` replaces, read off the pattern. */
  ghost predicate Matched(s: string, i: nat)
    requires i < |s|
  {
    Digit(s[i]) && Lookahead(s, i + 1, 4)
  }

  /** The suffix of the masked number from p on, filled from the right while counting digits passed. */
  function PhoneFrom(s: string, p: nat): (r: (string, nat))
    ensures r.1 == DigitsFrom(s, p)
    decreases |s| - p
  {
    if p >= |s| then ("", 0)
    else
      var (rest, seen) := PhoneFrom(s, p + 1);
      if Digit(s[p]) then ([if seen >= 4 then '*' else s[p]] + rest, seen + 1)
      else ([s[p]] + rest, seen)
  }

  function MaskPhone(s: string): string {
    PhoneFrom(s, 0).0
  }

  lemma {:induction false} PhoneFromAt(s: string, p: nat, i: nat)
    requires p <= |s|
    ensures |PhoneFrom(s, p).0| == |s| - p
    ensures p <= i < |s| ==>
      PhoneFrom(s, p).0[i - p] == if Digit(s[i]) && DigitsFrom(s, i + 1) >= 4 then '*' else s[i]
    decreases |s| - p
  {
    if p < |s| { PhoneFromAt(s, p + 1, if i == p then p + 1 else i); }
  }

  /** One counting pass replaces exactly the matches of the pattern and leaves every other character. */
  lemma MaskPhoneReplacesMatches(s: string)
    ensures |MaskPhone(s)| == |s|
    ensures forall i | 0 <= i < |s| :: MaskPhone(s)[i] == if Matched(s, i) then '*' else s[i]
  {
    hide PhoneFrom, Lookahead, DigitsFrom;
    PhoneFromAt(s, 0, 0);
    forall i | 0 <= i < |s|
      ensures MaskPhone(s)[i] == if Matched(s, i) then '*' else s[i]
    {
      PhoneFromAt(s, 0, i);
      LookaheadCounts(s, i + 1, 4);
    }
  }

  /** Digits left over once a masked number is read again: at most four. */
  lemma {:induction false} MaskedDigits(s: string, p: nat)
    requires p <= |s|
    ensures |MaskPhone(s)| == |s|
    ensures DigitsFrom(MaskPhone(s), p) == if DigitsFrom(s, p) <= 4 then DigitsFrom(s, p) else 4
    decreases |s| - p
  {
    MaskPhoneReplacesMatches(s);
    if p < |s| {
      MaskedDigits(s, p + 1);
      LookaheadCounts(s, p + 1, 4);
    }
  }

  /** Non-digits and the last four digits stay, every earlier digit becomes `*`, at most four digits remain,
      and masking a second time changes nothing. */
  lemma MaskPhoneHidesAllButFour(s: string)
    ensures |MaskPhone(s)| == |s|
    ensures forall i | 0 <= i < |s| && !Digit(s[i]) :: MaskPhone(s)[i] == s[i]
    ensures forall i | 0 <= i < |s| && Digit(s[i]) ::
      MaskPhone(s)[i] == if DigitsFrom(s, i + 1) < 4 then s[i] else '*'
    ensures DigitsFrom(MaskPhone(s), 0) <= 4
    ensures MaskPhone(MaskPhone(s)) == MaskPhone(s)
  {
    hide MaskPhone, Lookahead, DigitsFrom;
    MaskPhoneReplacesMatches(s);
    MaskedDigits(s, 0);
    MaskTwice(s);
    forall i | 0 <= i < |s| && Digit(s[i])
      ensures MaskPhone(s)[i] == if DigitsFrom(s, i + 1) < 4 then s[i] else '*'
    {
      LookaheadCounts(s, i + 1, 4);
    }
  }

  lemma MaskTwice(s: string)
    ensures MaskPhone(MaskPhone(s)) == MaskPhone(s)
  {
    hide MaskPhone, Lookahead, DigitsFrom;
    var m := MaskPhone(s);
    MaskPhoneReplacesMatches(s);
    MaskPhoneReplacesMatches(m);
    forall i | 0 <= i < |m| ensures MaskPhone(m)[i] == m[i] {
      LookaheadCounts(m, i + 1, 4);
      LookaheadCounts(s, i + 1, 4);
      MaskedDigits(s, i + 1);
    }
  }

  // ---------------------------------------------------------------- other strings

  function Min(a: int, b: int): int { if a < b then a else b }
  function Max(a: int, b: int): int { if a > b then a else b }

  /** `s.slice(0, n)` */
  function Prefix(s: string, n: nat): string {
    s[..Min(n, |s|)]
  }

  /** `s.indexOf(c)` */
  function IndexOf(s: string, c: char): (r: int)
    ensures r == -1 ==> c !in s
    ensures r != -1 ==> 0 <= r < |s| && s[r] == c && c !in s[..r]
  {
    if s == "" then -1
    else if s[0] == c then 0
    else
      var r := IndexOf(s[1..], c);
      if r < 0 then -1 else assert s[..r + 1] == [s[0]] + s[1..][..r]; r + 1
  }

  function MaskGeneric(s: string): string {
    Prefix(s, Max(1, (|s| + 2) / 3)) + "***"
  }

  function MaskName(s: string): string {
    Prefix(s, 2) + "***"
  }

  function MaskEmail(s: string): string {
    var at := IndexOf(s, '@');
    if at < 0 then MaskGeneric(s)
    else Prefix(s[..at], Min(2, Max(1, at - 1))) + "***" + s[at..]
  }

  /** The masked form shows the first `shown` characters of s and hides the rest of them. */
  predicate Shows(masked: string, s: string, shown: nat) {
    shown <= |s| && masked == s[..shown] + "***"
  }

  /** Of a plain string the least number of characters shows that makes up a third; something is hidden exactly
      from length two on. */
  lemma MaskGenericBound(s: string) returns (shown: nat)
    ensures Shows(MaskGeneric(s), s, shown)
    ensures 3 * (shown - 1) < |s| <= 3 * shown
    ensures shown < |s| <==> |s| >= 2
  {
    shown := Min(Max(1, (|s| + 2) / 3), |s|);
  }

  /** Two characters of a name show, or all it has; something is hidden exactly from length three on. */
  lemma MaskNameBound(s: string) returns (shown: nat)
    ensures Shows(MaskName(s), s, shown)
    ensures shown <= 2 && (shown < 2 ==> shown == |s|) && (shown < |s| <==> |s| >= 3)
  {
    shown := Min(2, |s|);
  }

  /** An address keeps its domain whole. Of its local part two characters show, but never all of two or more: one
      of two, and the only one of one. Without an `@` it is masked as plain text. */
  lemma MaskEmailBound(s: string) returns (shown: nat)
    ensures '@' !in s ==> MaskEmail(s) == MaskGeneric(s)
    ensures '@' in s ==>
      var at := IndexOf(s, '@');
      && 0 <= at < |s| && shown <= at && shown <= 2
      && MaskEmail(s) == s[..shown] + "***" + s[at..]
      && s[at..] == MaskEmail(s)[|MaskEmail(s)| - (|s| - at)..]
      && (at >= 3 ==> shown == 2) && (at == 2 ==> shown == 1) && (at <= 1 ==> shown == at)
  {
    var at := IndexOf(s, '@');
    shown := if at < 0 then 0 else Min(Min(2, Max(1, at - 1)), at);
    if at >= 0 {
      assert s[..at][..shown] == s[..shown];
    }
  }

  // ---------------------------------------------------------------- whole payloads

  /** The mask of one string under its lower-cased key. */
  function MaskText(key: string, s: string): string {
    if Includes(key, "email") then MaskEmail(s)
    else if Includes(key, "phone") then MaskPhone(s)
    else if Includes(key, "name") then MaskName(s)
    else MaskGeneric(s)
  }

  /** `result[key] = value` on an object literal: `__proto__` is a setter, so no own property appears. */
  function Assign(result: Record, key: string, value: Value): Record {
    if key == "__proto__" then result else result[key := value]
  }

  function MaskValue(key: string, v: Value): Value
    decreases v
  {
    match v
    case Obj(f) => Obj(map k | k in f && k != "__proto__" :: MaskValue(Lower(k), f[k]))
    case Str(s) => Str(MaskText(key, s))
    case _ => v
  }

  function Mask(data: Record): Record {
    MaskValue("", Obj(data)).fields
  }

  /** `mask`, as the service runs it: a result object filled property by property. */
  method MaskRecord(data: Value) returns (result: Record)
    requires data.Obj?
    ensures result == Mask(data.fields)
    decreases data, 1
  {
    result := map[];
    var todo := data.fields.Keys;
    while todo != {}
      invariant todo <= data.fields.Keys
      invariant result.Keys == data.fields.Keys - todo - {"__proto__"}
      invariant forall k | k in result :: k in data.fields && result[k] == MaskValue(Lower(k), data.fields[k])
      decreases todo
    {
      var key :| key in todo;
      var masked := MaskOne(Lower(key), data.fields[key]);
      result := Assign(result, key, masked);
      todo := todo - {key};
    }
  }

  /** `maskValue` */
  method MaskOne(key: string, value: Value) returns (r: Value)
    ensures r == MaskValue(key, value)
    ensures value.Str? ==> r.Str? && forall k :: key == Lower(k) ==> Shown(k, value.s, r.s)
    decreases value, 2
  {
    if value.Obj? {
      var inner := MaskRecord(value);
      assert MaskValue(key, value).fields == MaskValue("", value).fields;
      return Obj(inner);
    }
    if !value.Str? { return value; }
    r := Str(MaskText(key, value.s));
    forall k | key == Lower(k) ensures Shown(k, value.s, r.s) { TextShows(k, value.s); }
  }

  /** A position inside nested objects, named by the keys on the way. */
  type Path = seq<string>

  /** The value at a path through objects, if every key on it exists. */
  predicate Reaches(v: Value, p: Path)
    decreases |p|
  {
    p == [] || (v.Obj? && p[0] in v.fields && Reaches(v.fields[p[0]], p[1..]))
  }

  function At(v: Value, p: Path): Value
    requires Reaches(v, p)
    decreases |p|
  {
    if p == [] then v else At(v.fields[p[0]], p[1..])
  }

  /** At every depth: masking keeps exactly the paths that avoid the key `__proto__`; an object stays an
      object there, a string becomes the mask for its own lower-cased key, and every other value, whole
      arrays included, is untouched. */
  lemma {:induction false} MaskAtEveryPath(key: string, v: Value, p: Path)
    ensures Reaches(MaskValue(key, v), p) <==> Reaches(v, p) && "__proto__" !in p
    ensures Reaches(v, p) && "__proto__" !in p ==>
      var before, after := At(v, p), At(MaskValue(key, v), p);
      && (before.Obj? <==> after.Obj?)
      && (before.Obj? ==> after.fields.Keys == before.fields.Keys - {"__proto__"})
      && (before.Str? ==> after == Str(MaskText(if p == [] then key else Lower(p[|p| - 1]), before.s)))
      && (!before.Obj? && !before.Str? ==> after == before)
    decreases |p|
  {
    if p == [] {
    } else if v.Obj? && p[0] in v.fields {
      assert p == [p[0]] + p[1..];
      MaskAtEveryPath(Lower(p[0]), v.fields[p[0]], p[1..]);
    }
  }

  /** The masked payload has the payload's own keys exactly when none of them is `__proto__`. This is about `mask`
      alone: the gateway's request validation drops such a key before `send` runs. */
  lemma MaskKeepsKeysIff(data: Record)
    ensures Mask(data).Keys == data.Keys <==> "__proto__" !in data
  {
    assert Mask(data).Keys == data.Keys - {"__proto__"};
  }

  // ---------------------------------------------------------------- what each key's value shows

  /** The key has the word in it, in whatever case: `lower` and `upper` are its two spellings. */
  ghost predicate Mentions(key: string, lower: string, upper: string)
    requires |lower| == |upper|
  {
    exists a, word, b :: key == a + word + b && |word| == |lower| &&
      forall i | 0 <= i < |word| :: word[i] == lower[i] || word[i] == upper[i]
  }

  /** The first `shown` characters and three stars, `shown` being the least number that makes a third. */
  ghost predicate ShowsAThird(s: string, m: string) {
    exists shown: nat :: shown <= |s| && 3 * (shown - 1) < |s| <= 3 * shown && m == s[..shown] + "***"
  }

  /** At most two characters and three stars. */
  ghost predicate ShowsTwo(s: string, m: string) {
    m == (if |s| <= 2 then s else s[..2]) + "***"
  }

  /** The places of the digits from p on. */
  function DigitPlaces(s: string, p: nat): set<nat> {
    set i: nat | p <= i < |s| && s[i] in "0123456789"
  }

  /** Every character in its place, but a digit with four digits or more behind it is a star. */
  ghost predicate ShowsLastFourDigits(s: string, m: string) {
    && |m| == |s|
    && forall i: nat | i < |s| :: m[i] == if s[i] in "0123456789" && |DigitPlaces(s, i + 1)| >= 4 then '*' else s[i]
  }

  /** The domain from the first `@` on, and before it two characters of the local part, or one fewer than it has, but
      never fewer than the first, and three stars; without an `@` as any text. */
  ghost predicate ShowsDomain(s: string, m: string) {
    if '@' in s then
      exists at: nat ::
        && at < |s| && s[at] == '@' && '@' !in s[..at]
        && m == (if at >= 3 then s[..2] else if at >= 1 then s[..1] else "") + "***" + s[at..]
    else ShowsAThird(s, m)
  }

  /** What may be seen of a value under its key. */
  ghost predicate Shown(key: string, s: string, m: string) {
    if Mentions(key, "email", "EMAIL") then ShowsDomain(s, m)
    else if Mentions(key, "phone", "PHONE") then ShowsLastFourDigits(s, m)
    else if Mentions(key, "name", "NAME") then ShowsTwo(s, m)
    else ShowsAThird(s, m)
  }

  /** The two spellings of a word. */
  ghost predicate Spellings(lower: string, upper: string)
    requires |lower| == |upper|
  {
    forall i | 0 <= i < |lower| :: 'a' <= lower[i] <= 'z' && upper[i] as int + 32 == lower[i] as int
  }

  lemma IncludedIsMentioned(key: string, lower: string, upper: string, i: nat)
    requires |lower| == |upper| && Spellings(lower, upper) && OccursAt(Lower(key), lower, i)
    ensures Mentions(key, lower, upper)
  {
    var low := Lower(key);
    var word := key[i..i + |lower|];
    assert key == key[..i] + word + key[i + |lower|..];
    forall j | 0 <= j < |word| ensures word[j] == lower[j] || word[j] == upper[j] {
      assert low[i..i + |lower|][j] == lower[j];
    }
  }

  lemma MentionedIsIncluded(lower: string, upper: string, a: string, word: string, b: string)
    requires |lower| == |upper| && Spellings(lower, upper) && |word| == |lower|
    requires forall i | 0 <= i < |word| :: word[i] == lower[i] || word[i] == upper[i]
    ensures Includes(Lower(a + word + b), lower)
  {
    var key := a + word + b;
    var low := Lower(key);
    forall j | 0 <= j < |lower| ensures low[|a| + j] == lower[j] { assert key[|a| + j] == word[j]; }
    assert low[|a|..|a| + |lower|] == lower;
    assert OccursAt(low, lower, |a|);
  }

  /** Lower-casing and searching finds a word in either case. */
  lemma MentionsIff(key: string, lower: string, upper: string)
    requires |lower| == |upper| && Spellings(lower, upper)
    ensures Includes(Lower(key), lower) <==> Mentions(key, lower, upper)
  {
    hide Spellings, Lower, OccursAt;
    if i :| 0 <= i <= |Lower(key)| && OccursAt(Lower(key), lower, i) { IncludedIsMentioned(key, lower, upper, i); }
    if a, word, b :| key == a + word + b && |word| == |lower| &&
                     forall i | 0 <= i < |word| :: word[i] == lower[i] || word[i] == upper[i] {
      MentionedIsIncluded(lower, upper, a, word, b);
    }
  }

  lemma DigitIsListed(ch: char)
    ensures Digit(ch) <==> ch in "0123456789"
  {
    var digits := "0123456789";
    if Digit(ch) { assert digits[ch as int - '0' as int] == ch; }
  }

  lemma OneMorePlace(s: string, p: nat)
    requires p < |s|
    ensures DigitPlaces(s, p) == (if s[p] in "0123456789" then {p} else {}) + DigitPlaces(s, p + 1)
  {
  }

  lemma {:induction false} DigitsCounted(s: string, p: nat)
    ensures DigitsFrom(s, p) == |DigitPlaces(s, p)|
    decreases |s| - p
  {
    hide DigitPlaces, Digit;
    if p < |s| {
      DigitsCounted(s, p + 1);
      DigitIsListed(s[p]);
      OneMorePlace(s, p);
      PlacesFrom(s, p + 1);
    } else {
      PlacesFrom(s, p);
    }
  }

  lemma PlacesFrom(s: string, p: nat)
    ensures forall i | i in DigitPlaces(s, p) :: p <= i
    ensures p >= |s| ==> DigitPlaces(s, p) == {}
  {
  }

  lemma PhoneShows(s: string)
    ensures ShowsLastFourDigits(s, MaskPhone(s))
  {
    hide MaskPhone, Lookahead, DigitsFrom, DigitPlaces, Digit;
    MaskPhoneReplacesMatches(s);
    forall i: nat | i < |s|
      ensures MaskPhone(s)[i] == if s[i] in "0123456789" && |DigitPlaces(s, i + 1)| >= 4 then '*' else s[i]
    {
      DigitIsListed(s[i]);
      LookaheadCounts(s, i + 1, 4);
      DigitsCounted(s, i + 1);
    }
  }

  lemma EmailShows(s: string)
    ensures ShowsDomain(s, MaskEmail(s))
  {
    hide Mentions;
    var _ := MaskEmailBound(s);
    if '@' in s {
      var at: nat := IndexOf(s, '@');
      assert at < |s| && s[at] == '@' && '@' !in s[..at];
    } else {
      GenericShows(s);
    }
  }

  lemma GenericShows(s: string)
    ensures ShowsAThird(s, MaskGeneric(s))
  {
    var shown := MaskGenericBound(s);
  }

  /** The mask that the lower-cased key selects shows what may be seen under the key. */
  lemma TextShows(key: string, s: string)
    ensures Shown(key, s, MaskText(Lower(key), s))
  {
    hide Mentions, Includes, MaskEmail, MaskPhone, MaskGeneric, ShowsDomain, ShowsLastFourDigits, ShowsAThird, Lower;
    MentionsIff(key, "email", "EMAIL");
    MentionsIff(key, "phone", "PHONE");
    MentionsIff(key, "name", "NAME");
    EmailShows(s);
    PhoneShows(s);
    GenericShows(s);
  }

  /** In the masked payload every string, at whatever depth, shows what its own key allows: under a key with "email"
      in it the domain and at most two characters of the rest, otherwise under one with "phone" all but the digits
      before the last four, otherwise under one with "name" two characters, otherwise a third. */
  lemma MaskShows(data: Record, p: Path)
    requires p != [] && "__proto__" !in p && Reaches(Obj(data), p) && At(Obj(data), p).Str?
    ensures Reaches(Obj(Mask(data)), p) && At(Obj(Mask(data)), p).Str?
    ensures Shown(p[|p| - 1], At(Obj(data), p).s, At(Obj(Mask(data)), p).s)
  {
    hide Shown, MaskText, Lower, Reaches, At;
    assert MaskValue("", Obj(data)) == Obj(Mask(data));
    MaskAtEveryPath("", Obj(data), p);
    TextShows(p[|p| - 1], At(Obj(data), p).s);
  }
}
