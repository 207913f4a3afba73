// The rule every part of the extension uses to turn a hostname into a
// configuration key: each character outside [A-Za-z0-9] becomes '_'
// (`hostname.replace(/[^a-zA-Z0-9]/g, '_')`).

module SiteIds {

  predicate IsAlnum(c: char) {
    ('a' <= c <= 'z') || ('A' <= c <= 'Z') || ('0' <= c <= '9')
  }

  /** A character that may appear in a site id. */
  predicate IsIdChar(c: char) {
    IsAlnum(c) || c == '_'
  }

  predicate IsSiteIdShape(s: string) {
    forall i :: 0 <= i < |s| ==> IsIdChar(s[i])
  }

  function IdChar(c: char): (r: char)
    ensures IsIdChar(r)
    ensures IsAlnum(c) ==> r == c
    ensures !IsAlnum(c) ==> r == '_'
  {
    if IsAlnum(c) then c else '_'
  }

  function SiteId(hostname: string): (r: string)
    ensures |r| == |hostname|
    decreases |hostname|
  {
    if |hostname| == 0 then "" else [IdChar(hostname[0])] + SiteId(hostname[1..])
  }

  /** Position by position: letters and digits are kept, everything else becomes '_'. */
  lemma {:induction false} SiteIdAt(hostname: string, i: nat)
    requires i < |hostname|
    ensures SiteId(hostname)[i] == IdChar(hostname[i])
    decreases i
  {
    if i > 0 {
      SiteIdAt(hostname[1..], i - 1);
    }
  }

  /** Every id the rule produces is made only of letters, digits and '_'. */
  lemma SiteIdShape(hostname: string)
    ensures IsSiteIdShape(SiteId(hostname))
  {
    forall i | 0 <= i < |hostname| ensures IsIdChar(SiteId(hostname)[i]) {
      SiteIdAt(hostname, i);
    }
  }

  /** The rule leaves a string of id characters unchanged. */
  lemma {:induction false} SiteIdFixesIdShape(s: string)
    requires IsSiteIdShape(s)
    ensures SiteId(s) == s
    decreases |s|
  {
    if |s| > 0 {
      assert IsSiteIdShape(s[1..]) by {
        forall i | 0 <= i < |s| - 1 ensures IsIdChar(s[1..][i]) {
          assert s[1..][i] == s[i + 1];
        }
      }
      SiteIdFixesIdShape(s[1..]);
      assert IsIdChar(s[0]);
    }
  }

  /** Applying the rule twice gives the same id as applying it once. */
  lemma SiteIdIdempotent(hostname: string)
    ensures SiteId(SiteId(hostname)) == SiteId(hostname)
  {
    SiteIdShape(hostname);
    SiteIdFixesIdShape(SiteId(hostname));
  }
}
