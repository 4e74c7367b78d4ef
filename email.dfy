/**
 * The string format behind `zod.email()`: zod's default email pattern
 *   ^(?!\.)(?!.*\.\.)([a-z0-9_'+\-\.]*)[a-z0-9_+-]@([a-z0-9][a-z0-9\-]*\.)+[a-z]{2,}$   (case-insensitive)
 * written as predicates. A local part cannot contain '@' and a domain label
 * cannot contain '.', so the pattern's only way to match splits at the first
 * '@' and then at each first '.'; the predicates split the same way.
 */
module Email {

  predicate IsLetter(c: char) {
    'a' <= c <= 'z' || 'A' <= c <= 'Z'
  }

  predicate IsAlnum(c: char) {
    IsLetter(c) || '0' <= c <= '9'
  }

  /** `[a-z0-9_+-]`: the characters that may end a local part. */
  predicate IsLocalEnd(c: char) {
    IsAlnum(c) || c == '_' || c == '+' || c == '-'
  }

  /** `[a-z0-9_'+\-\.]`: the characters of a local part before its last one. */
  predicate IsLocalChar(c: char) {
    IsLocalEnd(c) || c == '\'' || c == '.'
  }

  /** `[a-z0-9\-]`: the characters of a domain label after its first one. */
  predicate IsLabelChar(c: char) {
    IsAlnum(c) || c == '-'
  }

  /** Position of the first `c` in `s`, or `|s|` when there is none. */
  function IndexOf(s: string, c: char): (i: nat)
    ensures i <= |s|
    ensures i < |s| ==> s[i] == c
    ensures forall j :: 0 <= j < i ==> s[j] != c
  {
    if s == [] then 0
    else if s[0] == c then 0
    else 1 + IndexOf(s[1..], c)
  }

  /** `(?!\.)([a-z0-9_'+\-\.]*)[a-z0-9_+-]` */
  predicate LocalPart(s: string) {
    && |s| >= 1
    && s[0] != '.'
    && (forall i :: 0 <= i < |s| - 1 ==> IsLocalChar(s[i]))
    && IsLocalEnd(s[|s| - 1])
  }

  /** `[a-z0-9][a-z0-9\-]*` */
  predicate HostLabel(s: string) {
    |s| >= 1 && IsAlnum(s[0]) && forall i :: 1 <= i < |s| ==> IsLabelChar(s[i])
  }

  /** `[a-z]{2,}` */
  predicate TopLevelLabel(s: string) {
    |s| >= 2 && forall i :: 0 <= i < |s| ==> IsLetter(s[i])
  }

  /** `([a-z0-9][a-z0-9\-]*\.)+[a-z]{2,}` */
  predicate Domain(s: string)
    decreases |s|
  {
    var dot := IndexOf(s, '.');
    && dot < |s|
    && HostLabel(s[..dot])
    && (TopLevelLabel(s[dot + 1..]) || Domain(s[dot + 1..]))
  }

  /** `(?!.*\.\.)`: no two consecutive dots anywhere. */
  predicate NoDoubleDot(s: string) {
    forall i :: 0 <= i < |s| - 1 ==> !(s[i] == '.' && s[i + 1] == '.')
  }

  /** The whole pattern. */
  predicate IsEmail(s: string) {
    var at := IndexOf(s, '@');
    && at < |s|
    && LocalPart(s[..at])
    && Domain(s[at + 1..])
    && NoDoubleDot(s)
  }

  /** The first `c` in `a + b` is the head of `b` when `a` holds none. */
  lemma {:induction false} IndexOfAfter(a: string, b: string, c: char)
    requires forall i :: 0 <= i < |a| ==> a[i] != c
    requires |b| > 0 && b[0] == c
    ensures IndexOf(a + b, c) == |a|
  {
    if a != [] {
      assert (a + b)[1..] == a[1..] + b;
      IndexOfAfter(a[1..], b, c);
    }
  }

  /** `host.top` is a domain when `host` is a label and `top` a top-level label. */
  lemma DomainIntro(host: string, top: string)
    requires HostLabel(host) && TopLevelLabel(top)
    ensures Domain(host + "." + top)
  {
    var domain := host + "." + top;
    forall i | 0 <= i < |host|
      ensures host[i] != '.'
    {
      assert i >= 1 ==> IsLabelChar(host[i]);
    }
    IndexOfAfter(host, "." + top, '.');
    assert host + ("." + top) == domain;
    assert domain[..|host|] == host;
    assert domain[|host| + 1..] == top;
  }

  /** No two dots meet in `local@host.top`. */
  lemma NoDoubleDotIntro(local: string, host: string, top: string)
    requires LocalPart(local) && NoDoubleDot(local) && HostLabel(host) && TopLevelLabel(top)
    ensures NoDoubleDot(local + "@" + host + "." + top)
  {
    var s := local + "@" + host + "." + top;
    var L, H := |local|, |host|;
    forall i | 0 <= i < |s| - 1
      ensures !(s[i] == '.' && s[i + 1] == '.')
    {
      if i < L - 1 {
        assert s[i] == local[i] && s[i + 1] == local[i + 1];
      } else if i == L - 1 {
        assert s[i] == local[L - 1];
      } else if i == L {
        assert s[i] == '@';
      } else if i < L + H {
        assert s[i + 1] == host[i + 1 - (L + 1)];
        assert IsLabelChar(host[i + 1 - (L + 1)]);
      } else if i == L + H {
        assert s[i] == host[H - 1];
        assert H - 1 == 0 || IsLabelChar(host[H - 1]);
      } else {
        assert s[i + 1] == top[i + 1 - (L + H + 2)];
      }
    }
  }

  /** `local@host.top` is email-shaped when each part is. */
  lemma EmailIntro(local: string, host: string, top: string)
    requires LocalPart(local) && NoDoubleDot(local) && HostLabel(host) && TopLevelLabel(top)
    ensures IsEmail(local + "@" + host + "." + top)
  {
    var domain := host + "." + top;
    var s := local + "@" + domain;
    assert s == local + "@" + host + "." + top;
    forall i | 0 <= i < |local|
      ensures local[i] != '@'
    {
      assert i < |local| - 1 ==> IsLocalChar(local[i]);
    }
    IndexOfAfter(local, "@" + domain, '@');
    assert local + ("@" + domain) == s;
    assert s[..|local|] == local;
    assert s[|local| + 1..] == domain;
    DomainIntro(host, top);
    NoDoubleDotIntro(local, host, top);
  }

  /** A domain never contains '@'. */
  lemma {:induction false} DomainHasNoAt(s: string)
    requires Domain(s)
    ensures forall i :: 0 <= i < |s| ==> s[i] != '@'
  {
    var dot := IndexOf(s, '.');
    var rest := s[dot + 1..];
    if !TopLevelLabel(rest) {
      DomainHasNoAt(rest);
    }
    forall i | 0 <= i < |s|
      ensures s[i] != '@'
    {
      if i < dot {
        assert s[i] == s[..dot][i];
      } else if i > dot {
        assert s[i] == rest[i - dot - 1];
      }
    }
  }

  /** An email-shaped string holds exactly one '@', so splitting it at the first one is the only split. */
  lemma OneAt(s: string)
    requires IsEmail(s)
    ensures var at := IndexOf(s, '@'); forall i :: 0 <= i < |s| && s[i] == '@' ==> i == at
  {
    var at := IndexOf(s, '@');
    var domain := s[at + 1..];
    DomainHasNoAt(domain);
    forall i | at < i < |s|
      ensures s[i] != '@'
    {
      assert s[i] == domain[i - at - 1];
    }
  }

  lemma SampleParts()
    ensures LocalPart("user") && NoDoubleDot("user") && HostLabel("example") && TopLevelLabel("com")
  {
  }

  /** The address the sign-up and sign-in payloads use is email-shaped. */
  lemma SampleAddress()
    ensures IsEmail("user@example.com")
  {
    SampleParts();
    EmailIntro("user", "example", "com");
    SampleJoin();
  }

  lemma SampleJoin()
    ensures "user" + "@" + "example" + "." + "com" == "user@example.com"
  {
  }
}
