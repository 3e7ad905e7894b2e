/** The two normal forms an email address is compared in: the adapter's own, and the SQL query's
    lower(regexp_replace(email, '\+[^@]+', '')). Case folding is ASCII. */
module Email {
  function LowerChar(c: char): char {
    if 'A' <= c <= 'Z' then (c as int + 32) as char else c
  }

  function Lower(s: string): (r: string)
    ensures |r| == |s| && forall i :: 0 <= i < |s| ==> r[i] == LowerChar(s[i])
  {
    seq(|s|, i requires 0 <= i < |s| => LowerChar(s[i]))
  }

  predicate IsSpace(c: char) { c in " \t\n\r" || c as int in {11, 12} }

  function StripLeft(s: string): string {
    if s != "" && IsSpace(s[0]) then StripLeft(s[1..]) else s
  }

  function StripRight(s: string): string {
    if s != "" && IsSpace(s[|s| - 1]) then StripRight(s[..|s| - 1]) else s
  }

  function Strip(s: string): string { StripRight(StripLeft(s)) }

  predicate Trimmed(s: string) { s != "" ==> !IsSpace(s[0]) && !IsSpace(s[|s| - 1]) }

  predicate IsFirst(s: string, c: char, k: nat) {
    k <= |s| && (k < |s| ==> s[k] == c) && forall i :: 0 <= i < k ==> s[i] != c
  }

  lemma {:induction false} SomeIsFirst(s: string, c: char)
    ensures exists k: nat :: k <= |s| && IsFirst(s, c, k)
  {
    if s == "" || s[0] == c {
      assert IsFirst(s, c, 0);
    } else {
      SomeIsFirst(s[1..], c);
      var k: nat :| k <= |s[1..]| && IsFirst(s[1..], c, k);
      forall i | 0 <= i < k + 1 ensures s[i] != c {
        assert i > 0 ==> s[1..][i - 1] == s[i];
      }
      assert IsFirst(s, c, k + 1);
    }
  }

  // The position of the first c, or the length.
  function Find(s: string, c: char): (k: nat)
    ensures IsFirst(s, c, k)
  {
    SomeIsFirst(s, c);
    var k: nat :| k <= |s| && IsFirst(s, c, k);
    k
  }

  predicate Has(s: string, c: char) { Find(s, c) < |s| }

  // What precedes the first c, and what follows it.
  function Head(s: string, c: char): string { s[..Find(s, c)] }

  function Tail(s: string, c: char): string { if Has(s, c) then s[Find(s, c) + 1..] else "" }

  // local, _, domain = e.partition("@"); local.partition("+")[0] + "@" + domain
  function Untagged(e: string): string {
    Head(Head(e, '@'), '+') + "@" + Tail(e, '@')
  }

  function PythonForm(email: string): string { Untagged(Lower(Strip(email))) }

  predicate Opens(s: string, k: nat) { k + 1 < |s| && s[k] == '+' && s[k + 1] != '@' }

  predicate IsFirstMatch(s: string, k: nat) {
    k <= |s| && (k < |s| ==> Opens(s, k)) && forall i: nat :: i < k ==> !Opens(s, i)
  }

  lemma {:induction false} SomeIsFirstMatch(s: string)
    ensures exists k: nat :: k <= |s| && IsFirstMatch(s, k)
  {
    if s == "" || Opens(s, 0) {
      assert IsFirstMatch(s, 0);
    } else {
      SomeIsFirstMatch(s[1..]);
      var k: nat :| k <= |s[1..]| && IsFirstMatch(s[1..], k);
      forall i: nat | i < k + 1 ensures !Opens(s, i) {
        assert i > 0 ==> (Opens(s, i) <==> Opens(s[1..], i - 1));
      }
      assert k < |s[1..]| ==> (Opens(s, k + 1) <==> Opens(s[1..], k));
      assert IsFirstMatch(s, k + 1);
    }
  }

  // The first match of \+[^@]+: the leftmost '+' with something other than '@' behind it.
  function Match(s: string): (k: nat)
    ensures IsFirstMatch(s, k)
  {
    SomeIsFirstMatch(s);
    var k: nat :| k <= |s| && IsFirstMatch(s, k);
    k
  }

  function RemoveTag(s: string): string {
    var k := Match(s);
    if k == |s| then s else s[..k] + s[k + 1..][Find(s[k + 1..], '@')..]
  }

  function SqlForm(email: string): string { Lower(RemoveTag(email)) }

  // ----- What lowering and stripping do, without naming them -----

  predicate Upper(c: char) { 'A' <= c <= 'Z' }

  // The same character, or one letter in its two cases.
  predicate SameLetter(c: char, d: char) {
    c == d
    || (Upper(c) && d as int - 'a' as int == c as int - 'A' as int)
    || (Upper(d) && c as int - 'a' as int == d as int - 'A' as int)
  }

  predicate SameButCase(s: string, t: string) {
    |s| == |t| && forall i :: 0 <= i < |s| ==> SameLetter(s[i], t[i])
  }

  lemma LoweringIsCaseless(s: string, t: string)
    ensures Lower(s) == Lower(t) <==> SameButCase(s, t)
    ensures SameButCase(s, Lower(s)) && forall c | c in Lower(s) :: !Upper(c)
    ensures (forall c | c in s :: !Upper(c)) ==> Lower(s) == s
  {
    if Lower(s) == Lower(t) {
      forall i | 0 <= i < |s| ensures SameLetter(s[i], t[i]) {
        assert LowerChar(s[i]) == Lower(s)[i] == Lower(t)[i] == LowerChar(t[i]);
      }
    }
    if forall c | c in s :: !Upper(c) {
      forall i | 0 <= i < |s| ensures Lower(s)[i] == s[i] {
        assert s[i] in s;
      }
    }
  }

  predicate Space(c: char) {
    c == ' ' || c == '\t' || c == '\n' || c == '\r' || c as int == 11 || c as int == 12
  }

  // s between positions i and j, with nothing but space around, is core; core has no space at its ends.
  ghost predicate Surrounds(s: string, i: nat, j: nat, core: string) {
    && i <= j <= |s| && s[i..j] == core
    && (forall k :: 0 <= k < i || j <= k < |s| ==> Space(s[k]))
    && (core != "" ==> !Space(core[0]) && !Space(core[|core| - 1]))
  }

  // core is s without the space around it.
  ghost predicate IsCore(s: string, core: string) {
    exists i: nat, j: nat :: i <= j <= |s| && Surrounds(s, i, j, core)
  }

  lemma {:induction false} StripLeftTakes(s: string) returns (i: nat)
    ensures i <= |s| && StripLeft(s) == s[i..] && forall k :: 0 <= k < i ==> Space(s[k])
    ensures i < |s| ==> !Space(s[i])
  {
    i := 0;
    if s != "" && IsSpace(s[0]) {
      i := StripLeftTakes(s[1..]);
      assert s[1..][i..] == s[i + 1..];
      assert forall k :: 0 < k < i + 1 ==> s[k] == s[1..][k - 1];
      i := i + 1;
    }
  }

  lemma {:induction false} StripRightTakes(s: string) returns (m: nat)
    ensures m <= |s| && StripRight(s) == s[..m] && forall k :: m <= k < |s| ==> Space(s[k])
    ensures m > 0 ==> !Space(s[m - 1])
    decreases |s|
  {
    if s != "" && IsSpace(s[|s| - 1]) {
      m := StripRightTakes(s[..|s| - 1]);
      assert s[..|s| - 1][..m] == s[..m];
      assert forall k :: m <= k < |s| - 1 ==> s[k] == s[..|s| - 1][k];
    } else {
      m := |s|;
      assert s[..m] == s;
    }
  }

  lemma StripLeavesCore(s: string)
    ensures IsCore(s, Strip(s))
  {
    var i := StripLeftTakes(s);
    var t := s[i..];
    var m := StripRightTakes(t);
    assert t[..m] == s[i..i + m];
    forall k | 0 <= k < i || i + m <= k < |s| ensures Space(s[k]) {
      assert k >= i ==> s[k] == t[k - i];
    }
    assert m > 0 ==> t[0] == s[i] && t[m - 1] == s[i + m - 1];
    assert Surrounds(s, i, i + m, Strip(s));
  }

  lemma CoresAgree(s: string, i: nat, j: nat, core: string, i2: nat, j2: nat, core2: string)
    requires i <= j <= |s| && i2 <= j2 <= |s| && Surrounds(s, i, j, core) && Surrounds(s, i2, j2, core2)
    ensures core == core2
  {
    if core != "" {
      assert !Space(s[i]) && !Space(s[j - 1]);
    }
    if core2 != "" {
      assert !Space(s[i2]) && !Space(s[j2 - 1]);
    }
  }

  // Stripping takes off all the space around, and nothing else.
  lemma StrippingIsCore(s: string, core: string)
    ensures IsCore(s, core) <==> core == Strip(s)
  {
    StripLeavesCore(s);
    if IsCore(s, core) {
      var i: nat, j: nat :| i <= j <= |s| && Surrounds(s, i, j, core);
      var i2: nat, j2: nat :| i2 <= j2 <= |s| && Surrounds(s, i2, j2, Strip(s));
      CoresAgree(s, i, j, core, i2, j2, Strip(s));
    }
  }

  // The entry is the email, up to case and the space around the email.
  ghost predicate SameAddress(entry: string, email: string) {
    exists core :: IsCore(email, core) && SameButCase(entry, core)
  }

  lemma SameAddressByForms(entry: string, email: string)
    ensures SameAddress(entry, email) <==> Lower(entry) == Lower(Strip(email))
  {
    StrippingIsCore(email, Strip(email));
    LoweringIsCaseless(entry, Strip(email));
    if SameAddress(entry, email) {
      var core :| IsCore(email, core) && SameButCase(entry, core);
      StrippingIsCore(email, core);
    }
  }

  // ----- Facts about the pieces -----

  lemma LowerKeepsSigns(c: char)
    ensures LowerChar(LowerChar(c)) == LowerChar(c)
    ensures (LowerChar(c) == '@' <==> c == '@') && (LowerChar(c) == '+' <==> c == '+')
    ensures IsSpace(LowerChar(c)) <==> IsSpace(c)
  {
  }

  lemma FindIs(s: string, c: char, k: nat)
    requires k <= |s| && (k < |s| ==> s[k] == c) && forall i :: 0 <= i < k ==> s[i] != c
    ensures Find(s, c) == k
  {
  }

  lemma FindLower(s: string, c: char)
    requires c in ['@', '+']
    ensures Find(Lower(s), c) == Find(s, c)
  {
    var k, l := Find(s, c), Lower(s);
    forall i | 0 <= i < k ensures l[i] != c {
      LowerKeepsSigns(s[i]);
    }
    if k < |s| {
      LowerKeepsSigns(s[k]);
    }
    FindIs(l, c, k);
  }

  lemma LowerSplits(s: string, k: nat)
    requires k <= |s|
    ensures Lower(s)[..k] == Lower(s[..k]) && Lower(s)[k..] == Lower(s[k..])
  {
  }

  lemma LowerConcat(s: string, t: string)
    ensures Lower(s + t) == Lower(s) + Lower(t)
  {
  }

  lemma StripTrimmed(s: string)
    requires Trimmed(s)
    ensures Strip(s) == s
  {
  }

  lemma {:induction false} StripLeftTrims(s: string)
    ensures var r := StripLeft(s); r != "" ==> !IsSpace(r[0])
    decreases |s|
  {
    if s != "" && IsSpace(s[0]) {
      StripLeftTrims(s[1..]);
    }
  }

  lemma {:induction false} StripRightTrims(s: string)
    requires s != "" ==> !IsSpace(s[0])
    ensures Trimmed(StripRight(s))
    decreases |s|
  {
    if s != "" && IsSpace(s[|s| - 1]) {
      StripRightTrims(s[..|s| - 1]);
    }
  }

  // ----- The adapter's form -----

  predicate LowerCase(s: string) { forall i :: 0 <= i < |s| ==> LowerChar(s[i]) == s[i] }

  // Stripped, lower-cased, with an '@' and no '+' in front of it.
  predicate Normal(s: string) {
    && Trimmed(s) && LowerCase(s) && Has(s, '@')
    && forall i :: 0 <= i < Find(s, '@') ==> s[i] != '+'
  }

  lemma StripLowers(email: string)
    ensures var e := Lower(Strip(email)); Trimmed(e) && LowerCase(e)
  {
    var s := Strip(email);
    StripLeftTrims(email);
    StripRightTrims(StripLeft(email));
    forall i | 0 <= i < |s| ensures LowerChar(Lower(s)[i]) == Lower(s)[i] {
      LowerKeepsSigns(s[i]);
    }
    if s != "" {
      LowerKeepsSigns(s[0]);
      LowerKeepsSigns(s[|s| - 1]);
    }
  }

  lemma UntaggedParts(e: string, local: string, domain: string)
    requires local == Head(Head(e, '@'), '+') && domain == Tail(e, '@')
    ensures |local| <= |e| && local == e[..|local|]
    ensures |domain| <= |e| && domain == e[|e| - |domain|..]
    ensures forall i :: 0 <= i < |local| ==> local[i] != '@' && local[i] != '+'
  {
    var head := Head(e, '@');
    forall i | 0 <= i < |local| ensures local[i] != '@' && local[i] != '+' {
      assert local[i] == head[i] == e[i];
    }
  }

  lemma JoinedIsNormal(local: string, domain: string)
    requires LowerCase(local) && LowerCase(domain)
    requires forall i :: 0 <= i < |local| ==> local[i] != '@' && local[i] != '+'
    requires (local != "" ==> !IsSpace(local[0])) && (domain != "" ==> !IsSpace(domain[|domain| - 1]))
    ensures Normal(local + "@" + domain)
  {
    var r := local + "@" + domain;
    assert r[|local|] == '@';
    FindIs(r, '@', |local|);
    forall i | 0 <= i < |r| ensures LowerChar(r[i]) == r[i] {
      if i < |local| {
        assert r[i] == local[i];
      } else if |local| < i {
        assert r[i] == domain[i - |local| - 1];
      }
    }
    assert r[0] == if local != "" then local[0] else '@';
    assert r[|r| - 1] == if domain != "" then domain[|domain| - 1] else '@';
  }

  lemma UntaggedIsNormal(e: string)
    requires Trimmed(e) && LowerCase(e)
    ensures Normal(Untagged(e))
  {
    var local, domain := Head(Head(e, '@'), '+'), Tail(e, '@');
    UntaggedParts(e, local, domain);
    assert local != "" ==> local[0] == e[0];
    assert domain != "" ==> domain[|domain| - 1] == e[|e| - 1];
    JoinedIsNormal(local, domain);
  }

  lemma NormalIsFixed(r: string)
    requires Normal(r)
    ensures PythonForm(r) == r
  {
    StripTrimmed(r);
    assert Lower(r) == r;
    var k := Find(r, '@');
    var head := Head(r, '@');
    FindIs(head, '+', |head|);
    assert Head(head, '+') == head;
    assert r == head + "@" + r[k + 1..];
  }

  // Main theorem on the adapter's form: it always is a normal form, and a fixed point.
  lemma PythonFormIsIdempotent(email: string)
    ensures Normal(PythonForm(email)) && PythonForm(PythonForm(email)) == PythonForm(email)
  {
    StripLowers(email);
    UntaggedIsNormal(Lower(Strip(email)));
    NormalIsFixed(PythonForm(email));
  }

  lemma PythonFormIsTrimmed(email: string)
    ensures Trimmed(PythonForm(email)) && Has(PythonForm(email), '@')
  {
    PythonFormIsIdempotent(email);
  }

  // ----- When the two forms agree -----

  // No space around; the tag, if any, is before the '@' and not empty; without one, nothing behind the
  // '@' looks like one.
  predicate FormsAgree(email: string) {
    Trimmed(email) && Has(email, '@') &&
    var local, domain := Head(email, '@'), Tail(email, '@');
    if Has(local, '+') then Find(local, '+') + 1 < |local| else Match(domain) == |domain|
  }

  lemma MatchIs(s: string, k: nat)
    requires IsFirstMatch(s, k)
    ensures Match(s) == k
  {
    assert IsFirstMatch(s, Match(s));
  }

  lemma PartsLower(s: string, c: char)
    requires c in ['@', '+']
    ensures Head(Lower(s), c) == Lower(Head(s, c)) && Tail(Lower(s), c) == Lower(Tail(s, c))
  {
    var k := Find(s, c);
    FindLower(s, c);
    LowerSplits(s, k);
    if k < |s| {
      LowerSplits(s, k + 1);
    }
    PartsAt(s, c, k);
    PartsAt(Lower(s), c, k);
  }

  lemma PartsAt(s: string, c: char, k: nat)
    requires k == Find(s, c)
    ensures Head(s, c) == s[..k] && Tail(s, c) == if k < |s| then s[k + 1..] else ""
  {
  }

  // Lower-casing commutes with taking the tag off.
  lemma UntaggedLower(e: string)
    ensures Untagged(Lower(e)) == Lower(Untagged(e))
  {
    PartsLower(e, '@');
    PartsLower(Head(e, '@'), '+');
    LowerConcat(Head(Head(e, '@'), '+') + "@", Tail(e, '@'));
    LowerConcat(Head(Head(e, '@'), '+'), "@");
    assert Lower("@") == "@";
  }

  lemma PythonFormOfTrimmed(e: string)
    requires Trimmed(e) && Has(e, '@')
    ensures PythonForm(e) == Lower(Untagged(e))
  {
    StripTrimmed(e);
    UntaggedLower(e);
  }

  lemma MatchesTag(e: string)
    requires Has(e, '@') && Has(Head(e, '@'), '+')
    requires var local := Head(e, '@'); Find(local, '+') + 1 < |local|
    ensures Match(e) == Find(Head(e, '@'), '+') < Find(e, '@') - 1
  {
    var local := Head(e, '@');
    var p := Find(local, '+');
    forall i | 0 <= i < p ensures e[i] != '+' {
      assert local[i] == e[i];
    }
    assert e[p] == local[p] && e[p + 1] == local[p + 1];
    MatchIs(e, p);
  }

  lemma FindInRest(e: string, c: char, p: nat)
    requires p <= Find(e, c) < |e|
    ensures Find(e[p..], c) == Find(e, c) - p && e[p..][Find(e, c) - p..] == e[Find(e, c)..]
  {
    var rest := e[p..];
    forall i | 0 <= i < Find(e, c) - p ensures rest[i] != c {
      assert rest[i] == e[p + i];
    }
    FindIs(rest, c, Find(e, c) - p);
  }

  // A tag before the '@': the query takes off what the adapter takes off.
  lemma RemovesTag(e: string)
    requires Has(e, '@') && Has(Head(e, '@'), '+')
    requires var local := Head(e, '@'); Find(local, '+') + 1 < |local|
    ensures RemoveTag(e) == Untagged(e)
  {
    var p := Match(e);
    MatchesTag(e);
    FindInRest(e, '@', p + 1);
    HeadOfHead(e);
    FromAtOn(e);
    RemoveTagFrom(e, p, e[Find(e, '@')..]);
    JoinedOnce(e[..p], Tail(e, '@'));
  }

  lemma JoinedOnce(local: string, domain: string)
    ensures local + ("@" + domain) == local + "@" + domain
  {
  }

  lemma RemoveTagFrom(e: string, p: nat, rest: string)
    requires p == Match(e) < |e| && rest == e[p + 1..][Find(e[p + 1..], '@')..]
    ensures RemoveTag(e) == e[..p] + rest
  {
  }

  lemma HeadOfHead(e: string)
    ensures Head(Head(e, '@'), '+') == e[..Find(Head(e, '@'), '+')]
  {
  }

  lemma FromAtOn(e: string)
    requires Has(e, '@')
    ensures e[Find(e, '@')..] == "@" + Tail(e, '@')
  {
  }

  // With an empty tag the query keeps the '+' that the adapter drops.
  lemma EmptyTagDiffers(e: string)
    requires Trimmed(e) && Has(e, '@') && Has(Head(e, '@'), '+')
    requires var local := Head(e, '@'); Find(local, '+') + 1 == |local|
    ensures SqlForm(e) != PythonForm(e)
  {
    var local := Head(e, '@');
    var p := Find(local, '+');
    assert e[p] == local[p] == '+' && e[p + 1] == '@';
    var m := Match(e);
    forall i | 0 <= i < p ensures e[i] != '+' {
      assert local[i] == e[i];
    }
    assert m > p;
    assert RemoveTag(e)[p] == '+';
    assert SqlForm(e)[p] == '+';
    PythonFormOfTrimmed(e);
    assert Untagged(e)[p] == '@';
    assert PythonForm(e)[p] == '@';
  }

  // Without a tag before the '@', the query matches what it matches behind it.
  lemma MatchBehindAt(e: string)
    requires Has(e, '@') && !Has(Head(e, '@'), '+')
    ensures Match(e) == Find(e, '@') + 1 + Match(Tail(e, '@'))
  {
    var local, k := Head(e, '@'), Find(e, '@');
    forall i | 0 <= i < k ensures e[i] != '+' {
      assert local[i] == e[i];
    }
    MatchFrom(e, k, Tail(e, '@'));
  }

  lemma MatchFrom(e: string, k: nat, rest: string)
    requires k < |e| && e[k] == '@' && rest == e[k + 1..] && forall i :: 0 <= i < k ==> e[i] != '+'
    ensures Match(e) == k + 1 + Match(rest)
  {
    var m := Match(rest);
    forall i: nat | k < i < |e| ensures Opens(e, i) <==> Opens(rest, i - k - 1) {
      assert rest[i - k - 1] == e[i] && (i + 1 < |e| ==> rest[i - k] == e[i + 1]);
    }
    forall i: nat | i < k + 1 + m ensures !Opens(e, i) {
      assert i > k ==> !Opens(rest, i - k - 1);
    }
    MatchIs(e, k + 1 + m);
  }

  lemma RemovingShortens(e: string)
    ensures if Match(e) < |e| then |RemoveTag(e)| < |e| else RemoveTag(e) == e
  {
  }

  lemma NothingToTakeOff(e: string)
    requires Has(e, '@') && !Has(Head(e, '@'), '+')
    ensures Untagged(e) == e
  {
    var head := Head(e, '@');
    assert Head(head, '+') == head;
    assert e == head + "@" + e[Find(e, '@') + 1..];
  }

  lemma SqlFormWithoutTag(e: string)
    requires Trimmed(e) && Has(e, '@') && !Has(Head(e, '@'), '+')
    ensures SqlForm(e) == PythonForm(e) <==> Match(Tail(e, '@')) == |Tail(e, '@')|
  {
    MatchBehindAt(e);
    PythonFormOfTrimmed(e);
    NothingToTakeOff(e);
    RemovingShortens(e);
  }

  lemma SqlFormKeepsAtFree(e: string)
    requires !Has(e, '@')
    ensures !Has(SqlForm(e), '@')
  {
    var r := RemoveTag(e);
    RemoveTagKeepsAtFree(e);
    FindIs(r, '@', |r|);
    FindLower(r, '@');
  }

  lemma NoAtDiffers(e: string)
    requires Trimmed(e) && !Has(e, '@')
    ensures SqlForm(e) != PythonForm(e)
  {
    SqlFormKeepsAtFree(e);
    PythonFormIsTrimmed(e);
  }

  lemma RemoveTagKeepsAtFree(e: string)
    requires !Has(e, '@')
    ensures forall c | c in RemoveTag(e) :: c != '@'
  {
    var k := Match(e);
    if k < |e| {
      var rest := e[k + 1..];
      forall i | 0 <= i < |rest| ensures rest[i] != '@' {
        assert rest[i] == e[k + 1 + i];
      }
      FindIs(rest, '@', |rest|);
      assert RemoveTag(e) == e[..k];
    }
  }

  // The query keeps a space in front.
  lemma LeadingSpaceStays(e: string)
    requires e != "" && IsSpace(e[0])
    ensures !Trimmed(SqlForm(e))
  {
    assert Match(e) != 0;
    assert RemoveTag(e) != "" && RemoveTag(e)[0] == e[0];
    LowerKeepsSigns(e[0]);
  }

  // Something is left behind the match, so the query keeps what ends the address.
  lemma RemoveTagKeepsLast(e: string)
    requires e != "" && (Match(e) == |e| || Has(e[Match(e) + 1..], '@'))
    ensures RemoveTag(e) != "" && RemoveTag(e)[|RemoveTag(e)| - 1] == e[|e| - 1]
  {
    var k := Match(e);
    if k < |e| {
      var behind := e[k + 1..];
      var rest := behind[Find(behind, '@')..];
      RemoveTagFrom(e, k, rest);
      LastOfConcat(e[..k], rest);
    }
  }

  lemma LastOfConcat(s: string, t: string)
    requires t != ""
    ensures (s + t)[|s + t| - 1] == t[|t| - 1]
  {
  }

  lemma LowerKeepsLastSpace(r: string)
    requires r != "" && IsSpace(r[|r| - 1])
    ensures !Trimmed(Lower(r))
  {
    LowerKeepsSigns(r[|r| - 1]);
  }

  lemma TrailingSpaceStays(e: string)
    requires e != "" && IsSpace(e[|e| - 1])
    requires Match(e) == |e| || Has(e[Match(e) + 1..], '@')
    ensures !Trimmed(SqlForm(e))
  {
    RemoveTagKeepsLast(e);
    LowerKeepsLastSpace(RemoveTag(e));
  }

  lemma HeadOfPrefix(s: string, m: nat, c: char)
    requires Find(s, c) < m <= |s|
    ensures Find(s[..m], c) == Find(s, c) && Head(s[..m], c) == Head(s, c)
  {
    FindIs(s[..m], c, Find(s, c));
    assert s[..m][..Find(s, c)] == s[..Find(s, c)];
  }

  lemma PythonFormOfStripped(e: string, t: string)
    requires Strip(e) == t
    ensures PythonForm(e) == Lower(Untagged(t))
  {
    UntaggedLower(t);
  }

  lemma RemovesRest(e: string)
    requires Match(e) < |e| && !Has(e[Match(e) + 1..], '@')
    ensures SqlForm(e) == Lower(e[..Match(e)])
  {
    var k := Match(e);
    NothingFrom(e[k + 1..]);
    RemoveTagFrom(e, k, "");
    AppendNothing(e[..k]);
  }

  lemma NothingFrom(s: string)
    requires !Has(s, '@')
    ensures s[Find(s, '@')..] == ""
  {
  }

  lemma AppendNothing(s: string)
    ensures s + "" == s
  {
  }

  // Cut off at a later '+', an address is shorter than the adapter's, or still has a '+' where the
  // adapter's has the '@'.
  lemma CutDiffers(t: string, k: nat)
    requires Find(t, '@') < k < |t|
    requires var local := Head(t, '@'); Has(local, '+') ==> Find(local, '+') + 1 == |local|
    ensures Lower(Untagged(t)) != Lower(t[..k])
  {
    var local, domain, at := Head(t, '@'), Tail(t, '@'), Find(t, '@');
    var p := Find(local, '+');
    CutDiffersAt(t, local, domain, at, p, k);
  }

  lemma CutDiffersAt(t: string, local: string, domain: string, at: nat, p: nat, k: nat)
    requires at < k < |t| && local == t[..at] && domain == t[at + 1..]
    requires p == |local| || (p + 1 == |local| && local[p] == '+')
    ensures Lower(local[..p] + "@" + domain) != Lower(t[..k])
  {
    var r := local[..p] + "@" + domain;
    if p < |local| {
      assert r[p] == '@' && t[..k][p] == '+';
      LowerKeepsSigns('@');
      LowerKeepsSigns('+');
      assert Lower(r)[p] != Lower(t[..k])[p];
    } else {
      assert |Lower(r)| == |t| && |Lower(t[..k])| == k;
    }
  }

  lemma StripIsPrefix(e: string) returns (m: nat)
    requires e != "" && !IsSpace(e[0])
    ensures m <= |e| && Strip(e) == e[..m] && forall i :: m <= i < |e| ==> IsSpace(e[i])
  {
    assert StripLeft(e) == e;
    m := StripRightTakes(e);
    assert forall k :: m <= k < |e| ==> IsSpace(e[k]);
  }

  lemma RemovedToEnd(e: string)
    requires e != "" && !IsSpace(e[0]) && Match(e) < |e| && Find(e, '@') < Match(e)
    requires !Has(e[Match(e) + 1..], '@')
    ensures SqlForm(e) != PythonForm(e)
  {
    var k := Match(e);
    var m := StripIsPrefix(e);
    assert !IsSpace(e[k]);
    HeadOfPrefix(e, m, '@');
    EarlierTagsAreEmpty(e);
    CutDiffers(e[..m], k);
    assert e[..m][..k] == e[..k];
    PythonFormOfStripped(e, e[..m]);
    RemovesRest(e);
  }

  lemma EarlierTagsAreEmpty(e: string)
    requires Find(e, '@') < Match(e)
    ensures var local := Head(e, '@'); Has(local, '+') ==> Find(local, '+') + 1 == |local|
  {
    var local := Head(e, '@');
    if Has(local, '+') {
      var p := Find(local, '+');
      assert e[p] == local[p] && !Opens(e, p);
    }
  }

  lemma TrailingDiffers(e: string)
    requires e != "" && !IsSpace(e[0]) && IsSpace(e[|e| - 1])
    ensures SqlForm(e) != PythonForm(e)
  {
    var k := Match(e);
    if k == |e| || Has(e[k + 1..], '@') {
      TrailingSpaceStays(e);
      PythonFormIsTrimmed(e);
    } else if Find(e, '@') < k {
      RemovedToEnd(e);
    } else {
      NothingBehindTag(e);
    }
  }

  lemma UntrimmedDiffers(e: string)
    requires !Trimmed(e)
    ensures SqlForm(e) != PythonForm(e)
  {
    if IsSpace(e[0]) {
      LeadingSpaceStays(e);
      PythonFormIsTrimmed(e);
    } else {
      TrailingDiffers(e);
    }
  }

  // No '@' before the match nor behind it.
  lemma NothingBehindTag(e: string)
    requires Match(e) < |e| && Match(e) <= Find(e, '@') && !Has(e[Match(e) + 1..], '@')
    ensures SqlForm(e) != PythonForm(e)
  {
    NoAtAnywhere(e, Match(e));
    SqlFormKeepsAtFree(e);
    PythonFormIsTrimmed(e);
  }

  lemma NoAtAnywhere(e: string, k: nat)
    requires k < |e| && e[k] != '@' && k <= Find(e, '@') && !Has(e[k + 1..], '@')
    ensures !Has(e, '@')
  {
    forall i | 0 <= i < |e| ensures e[i] != '@' {
      if i > k {
        assert e[i] == e[k + 1..][i - k - 1];
      }
    }
    FindIs(e, '@', |e|);
  }

  // Main theorem on both forms, for every address.
  lemma FormsAgreeExactly(e: string)
    ensures SqlForm(e) == PythonForm(e) <==> FormsAgree(e)
  {
    if !Trimmed(e) {
      UntrimmedDiffers(e);
    } else if !Has(e, '@') {
      NoAtDiffers(e);
    } else if !Has(Head(e, '@'), '+') {
      SqlFormWithoutTag(e);
    } else if Find(Head(e, '@'), '+') + 1 < |Head(e, '@')| {
      RemovesTag(e);
      PythonFormOfTrimmed(e);
    } else {
      EmptyTagDiffers(e);
    }
  }

  lemma PartsOf(local: string, domain: string)
    requires !Has(local, '@')
    ensures var e := local + "@" + domain; Has(e, '@') && Head(e, '@') == local && Tail(e, '@') == domain
  {
    var e := local + "@" + domain;
    FindIs(e, '@', |local|);
    assert e[..|local|] == local && e[|local| + 1..] == domain;
  }

  // The usual case: no '+' behind the first '@', and no empty tag before it.
  lemma OrdinaryAddressesAgree(local: string, domain: string)
    requires Trimmed(local + "@" + domain) && !Has(local, '@') && !Has(domain, '+')
    requires Has(local, '+') ==> Find(local, '+') + 1 < |local|
    ensures SqlForm(local + "@" + domain) == PythonForm(local + "@" + domain)
  {
    PartsOf(local, domain);
    MatchIs(domain, |domain|);
    FormsAgreeExactly(local + "@" + domain);
  }

  // An empty tag is invisible to the adapter, but not to the query.
  lemma EmptyTagIsAnotherAddress(local: string, domain: string)
    requires Trimmed(local + "@" + domain) && !Has(local, '@') && !Has(local, '+') && !Has(domain, '+')
    ensures var plain, tagged := local + "@" + domain, (local + "+") + "@" + domain;
            FormsAgree(plain) && !FormsAgree(tagged) && PythonForm(tagged) == PythonForm(plain)
  {
    var plain, longer := local + "@" + domain, local + "+";
    var tagged := longer + "@" + domain;
    EmptyTag(local);
    PartsOf(local, domain);
    PartsOf(longer, domain);
    MatchIs(domain, |domain|);
    LongerIsTrimmed(local, longer, domain);
    PythonFormOfTrimmed(plain);
    PythonFormOfTrimmed(tagged);
  }

  lemma EmptyTag(local: string)
    requires !Has(local, '@') && !Has(local, '+')
    ensures var longer := local + "+";
            !Has(longer, '@') && Find(longer, '+') == |local| && Head(longer, '+') == local == Head(local, '+')
  {
    var longer := local + "+";
    forall i | 0 <= i < |longer| ensures longer[i] != '@' {
      assert longer[i] == if i < |local| then local[i] else '+';
    }
    FindIs(longer, '@', |longer|);
    FindIs(longer, '+', |local|);
  }

  // ----- What the adapter's form takes for one client -----

  // Case and the space around do not matter.
  lemma PythonFormIgnoresCaseAndSpace(e: string, e2: string, core: string, core2: string)
    requires IsCore(e, core) && IsCore(e2, core2) && SameButCase(core, core2)
    ensures PythonForm(e) == PythonForm(e2)
  {
    StrippingIsCore(e, core);
    StrippingIsCore(e2, core2);
    LoweringIsCaseless(core, core2);
  }

  // A tag does not matter.
  lemma PythonFormIgnoresTag(local: string, tag: string, domain: string)
    requires Trimmed(local + "@" + domain) && !Has(local, '@') && !Has(local, '+') && !Has(tag, '@')
    ensures PythonForm((local + "+" + tag) + "@" + domain) == PythonForm(local + "@" + domain)
  {
    var longer := local + "+" + tag;
    NoAtBeforeTag(local, tag);
    UntaggedAlike(local, longer, domain);
    LongerIsTrimmed(local, longer, domain);
    PartsOf(local, domain);
    PartsOf(longer, domain);
    PythonFormOfTrimmed(local + "@" + domain);
    PythonFormOfTrimmed(longer + "@" + domain);
  }

  lemma UntaggedAlike(local: string, longer: string, domain: string)
    requires !Has(local, '@') && !Has(local, '+') && !Has(longer, '@')
    requires |local| < |longer| && longer[..|local|] == local && longer[|local|] == '+'
    ensures Untagged(longer + "@" + domain) == Untagged(local + "@" + domain)
  {
    FindIs(longer, '+', |local|);
    PartsOf(local, domain);
    PartsOf(longer, domain);
    assert local[..|local|] == local;
  }

  lemma LongerIsTrimmed(local: string, longer: string, domain: string)
    requires Trimmed(local + "@" + domain)
    requires |local| < |longer| && longer[..|local|] == local && longer[|local|] == '+'
    ensures Trimmed(longer + "@" + domain)
  {
    var plain, tagged := local + "@" + domain, longer + "@" + domain;
    assert tagged[0] == longer[0] && (local != "" ==> longer[0] == longer[..|local|][0] == plain[0]);
    assert tagged[|tagged| - 1] == plain[|plain| - 1];
  }

  lemma NoAtBeforeTag(local: string, tag: string)
    requires !Has(local, '@') && !Has(tag, '@')
    ensures !Has(local + "+" + tag, '@')
  {
    var longer := local + "+" + tag;
    forall i | 0 <= i < |longer| ensures longer[i] != '@' {
      assert longer[i] == if i < |local| then local[i] else if i == |local| then '+' else tag[i - |local| - 1];
    }
    FindIs(longer, '@', |longer|);
  }

  // And nothing else changes: a plain address in small letters is its own form.
  lemma PlainAddressIsItsForm(local: string, domain: string)
    requires Trimmed(local + "@" + domain) && !Has(local, '@') && !Has(local, '+')
    requires forall c | c in local + "@" + domain :: !Upper(c)
    ensures PythonForm(local + "@" + domain) == local + "@" + domain
  {
    var e := local + "@" + domain;
    LoweringIsCaseless(e, e);
    PartsOf(local, domain);
    PythonFormOfTrimmed(e);
    assert local[..|local|] == local;
  }
}
