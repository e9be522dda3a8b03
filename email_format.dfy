/**
 * The address check shared by the subscription, newsletter and contact
 * routes and by the admin and contact forms: the regular expression
 * `^[^\s@]+@[^\s@]+\.[^\s@]+$`.
 */
module EmailFormat {

  import opened Text

  /** A character of `[^\s@]`. */
  predicate Plain(c: char) {
    !IsSpace(c) && c != '@'
  }

  /** A (possibly empty) run of `[^\s@]` characters. */
  predicate PlainRun(t: string) {
    forall i :: 0 <= i < |t| ==> Plain(t[i])
  }

  /**
   * The regular expression read as a decomposition: three non-empty plain runs
   * `local`, `host` and `tld` with `s == local + "@" + host + "." + tld`
   * (`p` is the index of the '@', `q` that of the chosen '.').
   */
  ghost predicate MatchesPattern(s: string) {
    exists p, q :: 0 < p && p + 1 < q && q + 1 < |s| && s[p] == '@' && s[q] == '.'
      && PlainRun(s[..p]) && PlainRun(s[p + 1..q]) && PlainRun(s[q + 1..])
  }

  predicate NoSpace(s: string) {
    forall i :: 0 <= i < |s| ==> !IsSpace(s[i])
  }

  /** Position `p` holds the only '@' of `s`. */
  predicate SoleAt(s: string, p: int) {
    0 <= p < |s| && s[p] == '@' && forall i :: 0 <= i < |s| && s[i] == '@' ==> i == p
  }

  /**
   * `emailRegex.test(s)`, computed by looking at the characters: no white
   * space, exactly one '@' and it is not first, and a '.' after it that
   * neither follows it directly nor ends the address.
   */
  predicate IsValidEmail(s: string) {
    NoSpace(s) && exists p :: (0 < p < |s| && SoleAt(s, p)
      && exists q :: p + 1 < q < |s| - 1 && s[q] == '.')
  }

  /** The character test agrees with the regular expression on every string. */
  lemma IsValidEmailIff(s: string)
    ensures IsValidEmail(s) <==> MatchesPattern(s)
  {
    if IsValidEmail(s) {
      var p :| 0 < p < |s| && SoleAt(s, p) && exists q :: p + 1 < q < |s| - 1 && s[q] == '.';
      var q :| p + 1 < q < |s| - 1 && s[q] == '.';
      RunsOfSoleAt(s, p, q);
    }
    if MatchesPattern(s) {
      var p, q :| 0 < p && p + 1 < q && q + 1 < |s| && s[p] == '@' && s[q] == '.'
        && PlainRun(s[..p]) && PlainRun(s[p + 1..q]) && PlainRun(s[q + 1..]);
      SoleAtOfRuns(s, p, q);
    }
  }

  lemma RunsOfSoleAt(s: string, p: int, q: int)
    requires NoSpace(s) && SoleAt(s, p) && 0 < p && p + 1 < q && q + 1 < |s| && s[q] == '.'
    ensures PlainRun(s[..p]) && PlainRun(s[p + 1..q]) && PlainRun(s[q + 1..])
    ensures MatchesPattern(s)
  {
    forall i | 0 <= i < p ensures Plain(s[..p][i]) { assert s[..p][i] == s[i]; }
    var host, tld := s[p + 1..q], s[q + 1..];
    forall i | 0 <= i < |host| ensures Plain(host[i]) { assert host[i] == s[p + 1 + i]; }
    forall i | 0 <= i < |tld| ensures Plain(tld[i]) { assert tld[i] == s[q + 1 + i]; }
  }

  lemma SoleAtOfRuns(s: string, p: int, q: int)
    requires 0 < p && p + 1 < q && q + 1 < |s| && s[p] == '@' && s[q] == '.'
    requires PlainRun(s[..p]) && PlainRun(s[p + 1..q]) && PlainRun(s[q + 1..])
    ensures NoSpace(s) && SoleAt(s, p)
    ensures IsValidEmail(s)
  {
    forall i | 0 <= i < |s| && i != p && i != q ensures Plain(s[i]) {
      if i < p {
        assert s[..p][i] == s[i];
      } else if i < q {
        assert s[p + 1..q][i - p - 1] == s[i];
      } else {
        assert s[q + 1..][i - q - 1] == s[i];
      }
    }
  }
}
