/**
 * The e-mail check the login and registration forms share: the regular
 * expression /^[^\s@]+@[^\s@]+\.[^\s@]+$/ and the messages around it.
 */
module EmailRule {
  import opened Opt
  import opened Text

  /** Every character is matched by `[^\s@]`. */
  predicate Plain(t: string)
  {
    forall i :: 0 <= i < |t| ==> !IsSpace(t[i]) && t[i] != '@'
  }

  /**
   * The regular expression: a non-empty plain run, '@', a non-empty plain
   * run, '.', and a non-empty plain run up to the end.
   */
  predicate EmailMatches(s: string)
  {
    exists p, q | 0 < p && p + 1 < q && q + 1 < |s| ::
      s[p] == '@' && s[q] == '.' && Plain(s[..p]) && Plain(s[p + 1..q]) && Plain(s[q + 1..])
  }

  /**
   * The same rule in words: no white space, exactly one '@', text before it,
   * and after it a '.' with text on both sides.
   */
  predicate EmailShape(s: string)
  {
    var p := IndexOf(s, '@');
    (forall i :: 0 <= i < |s| ==> !IsSpace(s[i]))
    && 0 < p < |s| && '@' !in s[p + 1..]
    && exists q | p + 1 < q < |s| - 1 :: s[q] == '.'
  }

  lemma MatchesHasShape(s: string, p: int, q: int)
    requires 0 < p && p + 1 < q && q + 1 < |s|
    requires s[p] == '@' && s[q] == '.' && Plain(s[..p]) && Plain(s[p + 1..q]) && Plain(s[q + 1..])
    ensures EmailShape(s)
  {
    assert '@' !in s[..p] by {
      forall i | 0 <= i < p ensures s[..p][i] != '@' { }
    }
    IndexOfIs(s, '@', p);
    forall i | 0 <= i < |s|
      ensures !IsSpace(s[i])
    {
      if i < p {
        assert s[i] == s[..p][i];
      } else if p < i < q {
        assert s[i] == s[p + 1..q][i - p - 1];
      } else if q < i {
        assert s[i] == s[q + 1..][i - q - 1];
      }
    }
    forall i | p + 1 <= i < |s|
      ensures s[i] != '@'
    {
      if i < q {
        assert s[i] == s[p + 1..q][i - p - 1];
      } else if q < i {
        assert s[i] == s[q + 1..][i - q - 1];
      }
    }
    var rest := s[p + 1..];
    forall k | 0 <= k < |rest| ensures rest[k] != '@' {
      assert rest[k] == s[p + 1 + k];
    }
  }

  lemma ShapeMatches(s: string)
    requires EmailShape(s)
    ensures EmailMatches(s)
  {
    var p := IndexOf(s, '@');
    var q :| p + 1 < q < |s| - 1 && s[q] == '.';
    assert forall i :: p + 1 <= i < |s| ==> s[i] != '@' by {
      forall i | p + 1 <= i < |s| ensures s[i] != '@' {
        assert s[i] == s[p + 1..][i - p - 1];
      }
    }
    assert Plain(s[..p]) by {
      forall i | 0 <= i < p ensures !IsSpace(s[..p][i]) && s[..p][i] != '@' {
        assert s[..p][i] in s[..p];
      }
    }
    var domain := s[p + 1..q];
    forall i | 0 <= i < |domain| ensures !IsSpace(domain[i]) && domain[i] != '@' {
      assert domain[i] == s[p + 1 + i];
    }
    var top := s[q + 1..];
    forall i | 0 <= i < |top| ensures !IsSpace(top[i]) && top[i] != '@' {
      assert top[i] == s[q + 1 + i];
    }
  }

  /** The regular expression accepts exactly the addresses of the described shape. */
  lemma EmailMatchesIffShape(s: string)
    ensures EmailMatches(s) <==> EmailShape(s)
  {
    if EmailMatches(s) {
      var p, q :| 0 < p && p + 1 < q && q + 1 < |s| && s[p] == '@' && s[q] == '.'
                  && Plain(s[..p]) && Plain(s[p + 1..q]) && Plain(s[q + 1..]);
      MatchesHasShape(s, p, q);
    }
    if EmailShape(s) {
      ShapeMatches(s);
    }
  }

  const EmailRequired := "Email is required"
  const EmailInvalid := "Please enter a valid email address"

  /** `validateEmail`: the message the e-mail field shows, or none when the address is accepted. */
  function EmailError(email: string): Option<string>
  {
    if email == "" then Some(EmailRequired)
    else if !EmailMatches(email) then Some(EmailInvalid)
    else None
  }

  /** An address passes exactly when it has the described shape; an empty one is "required". */
  lemma EmailErrorCases(email: string)
    ensures email == "" ==> EmailError(email) == Some(EmailRequired)
    ensures email != "" && !EmailShape(email) ==> EmailError(email) == Some(EmailInvalid)
    ensures EmailError(email).None? <==> EmailShape(email)
  {
    EmailMatchesIffShape(email);
  }
}
