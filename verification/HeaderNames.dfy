/** Header names as net/http keeps them: Header.Set and Header.Get work on the canonical form. */
module HeaderNames {

  predicate IsLower(c: char) { 'a' <= c <= 'z' }

  predicate IsUpper(c: char) { 'A' <= c <= 'Z' }

  function Upper(c: char): char {
    if IsLower(c) then ((c as int) - 32) as char else c
  }

  function Lower(c: char): char {
    if IsUpper(c) then ((c as int) + 32) as char else c
  }

  /** The token characters of section 3.2.6 of RFC 7230. */
  predicate IsToken(c: char) {
    IsLower(c) || IsUpper(c) || '0' <= c <= '9' || c in "!#$%&'*+-.^_`|~"
  }

  predicate AllTokens(s: string) {
    forall i :: 0 <= i < |s| ==> IsToken(s[i])
  }

  /** Upper case at the start and after a hyphen, lower case elsewhere. */
  function Cased(s: string, start: bool): (r: string)
    ensures |r| == |s|
  {
    if s == [] then []
    else
      var c := if start then Upper(s[0]) else Lower(s[0]);
      [c] + Cased(s[1..], c == '-')
  }

  /** A name with any other character is left as it is. */
  function Canonical(name: string): (r: string)
    ensures |r| == |name|
  {
    if AllTokens(name) then Cased(name, true) else name
  }

  lemma {:induction false} CasedAt(s: string, start: bool, i: nat)
    requires i < |s|
    ensures Cased(s, start)[i] == if (if i == 0 then start else s[i - 1] == '-') then Upper(s[i]) else Lower(s[i])
  {
    if i > 0 {
      CasedAt(s[1..], Cased(s, start)[0] == '-', i - 1);
    }
  }

  /** Each letter's case: upper at the start and after a hyphen, lower elsewhere; any other name stays. */
  lemma CanonicalAt(name: string, i: nat)
    requires i < |name|
    ensures (exists k :: 0 <= k < |name| && !IsToken(name[k])) ==> Canonical(name) == name
    ensures AllTokens(name) && 'a' <= name[i] <= 'z' ==>
      Canonical(name)[i] as int == name[i] as int - (if i == 0 || name[i - 1] == '-' then 32 else 0)
    ensures AllTokens(name) && 'A' <= name[i] <= 'Z' ==>
      Canonical(name)[i] as int == name[i] as int + (if i == 0 || name[i - 1] == '-' then 0 else 32)
    ensures AllTokens(name) && !('a' <= name[i] <= 'z') && !('A' <= name[i] <= 'Z') ==> Canonical(name)[i] == name[i]
  {
    CasedAt(name, true, i);
  }

  lemma {:induction false} CasedKeepsTokens(s: string, start: bool)
    requires AllTokens(s)
    ensures AllTokens(Cased(s, start))
  {
    if s != [] {
      CasedKeepsTokens(s[1..], Cased(s, start)[0] == '-');
    }
  }

  lemma {:induction false} CasedTwice(s: string, start: bool)
    ensures Cased(Cased(s, start), start) == Cased(s, start)
  {
    if s != [] {
      CasedTwice(s[1..], Cased(s, start)[0] == '-');
    }
  }

  lemma CanonicalTwice(name: string)
    ensures Canonical(Canonical(name)) == Canonical(name)
  {
    if AllTokens(name) {
      CasedKeepsTokens(name, true);
      CasedTwice(name, true);
    }
  }
}
