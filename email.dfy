/** The e-mail check the three forms share: the regular expression
    `^[^\s@]+@[^\s@]+\.[^\s@]+$`. It is a deliberately simple shape test, not
    the address grammar of RFC 5322. */
module Email {
  import opened Common
  import opened JsText

  /** A character the class `[^\s@]` accepts. */
  predicate Plain(c: char)
  {
    !IsWhitespace(c) && c != '@'
  }

  predicate AllPlain(t: string)
  {
    forall k | 0 <= k < |t| :: Plain(t[k])
  }

  /** What the regular expression matches: the whole string splits as
      `local @ host . tld` with three non-empty runs of plain characters
      (the host may itself contain dots). */
  ghost predicate MatchesEmailRegex(s: string)
  {
    exists i, j | 0 < i && i + 1 < j && j + 1 < |s| ::
      && s[i] == '@' && s[j] == '.'
      && AllPlain(s[..i]) && AllPlain(s[i + 1..j]) && AllPlain(s[j + 1..])
  }

  /** The domain part has a dot that is neither its first nor its last character. */
  predicate HasInnerDot(d: string)
  {
    exists k | 0 < k < |d| - 1 :: d[k] == '.'
  }

  /** The same test read as four conditions: no whitespace; exactly one `@`
      (a first one and none after it); a non-empty local part; a domain part
      with an inner dot. This form is executable. */
  predicate IsEmail(s: string)
  {
    && NoWhitespace(s)
    && match IndexOf(s, '@')
       case None => false
       case Some(i) => 0 < i && '@' !in s[i + 1..] && HasInnerDot(s[i + 1..])
  }

  /** `emailRegex.test(s)`. */
  function EmailRegexTest(s: string): (r: bool)
    ensures r <==> MatchesEmailRegex(s)
  {
    RegexIffConditions(s);
    IsEmail(s)
  }

  /** The four conditions describe exactly the strings the regular expression
      matches. */
  lemma RegexIffConditions(s: string)
    ensures MatchesEmailRegex(s) <==> IsEmail(s)
  {
    if IsEmail(s) {
      ConditionsGiveMatch(s);
    }
    if MatchesEmailRegex(s) {
      MatchGivesConditions(s);
    }
  }

  lemma ConditionsGiveMatch(s: string)
    requires IsEmail(s)
    ensures MatchesEmailRegex(s)
  {
    var i := IndexOf(s, '@').value;
    var d := s[i + 1..];
    var k :| 0 < k < |d| - 1 && d[k] == '.';
    var j := i + 1 + k;
    assert s[j] == '.';
    var local, host, tld := s[..i], s[i + 1..j], s[j + 1..];
    assert AllPlain(local) by {
      forall m | 0 <= m < |local| ensures Plain(local[m]) {
        assert local[m] == s[m];
        assert s[m] in local;
      }
    }
    assert AllPlain(host) by {
      forall m | 0 <= m < |host| ensures Plain(host[m]) {
        assert host[m] == d[m] == s[i + 1 + m];
        assert d[m] in d;
      }
    }
    assert AllPlain(tld) by {
      forall m | 0 <= m < |tld| ensures Plain(tld[m]) {
        assert tld[m] == d[k + 1 + m] == s[j + 1 + m];
        assert d[k + 1 + m] in d;
      }
    }
  }

  lemma MatchGivesConditions(s: string)
    requires MatchesEmailRegex(s)
    ensures IsEmail(s)
  {
    var i, j :| 0 < i && i + 1 < j && j + 1 < |s|
      && s[i] == '@' && s[j] == '.'
      && AllPlain(s[..i]) && AllPlain(s[i + 1..j]) && AllPlain(s[j + 1..]);
    var local, host, tld := s[..i], s[i + 1..j], s[j + 1..];
    assert forall m | 0 <= m < |s| && m != i && m != j :: Plain(s[m]) by {
      forall m | 0 <= m < |s| && m != i && m != j ensures Plain(s[m]) {
        if m < i {
          assert local[m] == s[m];
        } else if m < j {
          assert host[m - i - 1] == s[m];
        } else {
          assert tld[m - j - 1] == s[m];
        }
      }
    }
    assert NoWhitespace(s);
    assert '@' !in local by {
      forall m | 0 <= m < |local| ensures local[m] != '@' {
        assert local[m] == s[m];
      }
    }
    assert IndexOf(s, '@') == Some(i) by {
      assert s[i] in s;
    }
    var d := s[i + 1..];
    assert '@' !in d by {
      forall m | 0 <= m < |d| ensures d[m] != '@' {
        assert d[m] == s[i + 1 + m];
      }
    }
    assert d[j - i - 1] == '.';
  }
}
