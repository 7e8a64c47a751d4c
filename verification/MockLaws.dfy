/** The answers of the mock provider, told from the digits of the amount and the letters of the biller. */
module MockLaws {
  import opened Basics
  import opened MockProvider
  import SessionKeys

  /** The amount, written out, ends in these two digits. */
  predicate EndsIn(amount: int, tens: char, ones: char) {
    amount >= 0 &&
    var text := SessionKeys.Decimal(amount);
    |text| >= 2 && text[|text| - 2] == tens && text[|text| - 1] == ones
  }

  lemma LastDigit(n: nat)
    ensures var text := SessionKeys.Decimal(n); |text| >= 1 && text[|text| - 1] == SessionKeys.Digit(n % 10)
    ensures n < 10 ==> |SessionKeys.Decimal(n)| == 1
    ensures n >= 10 ==> SessionKeys.Decimal(n) == SessionKeys.Decimal(n / 10) + [SessionKeys.Digit(n % 10)]
  {
  }

  lemma Hundreds(n: nat)
    ensures n % 100 == 10 * ((n / 10) % 10) + n % 10
  {
  }

  lemma SameDigit(a: nat, b: nat)
    requires a < 10 && b < 10
    ensures SessionKeys.Digit(a) == SessionKeys.Digit(b) <==> a == b
  {
  }

  lemma LastTwoDigits(n: nat, d: nat)
    requires d < 10
    ensures EndsIn(n, '9', SessionKeys.Digit(d)) <==> n % 100 == 90 + d
  {
    LastDigit(n);
    Hundreds(n);
    SameDigit(n % 10, d);
    if n >= 10 {
      LastDigit(n / 10);
      SameDigit((n / 10) % 10, 9);
      EndsInDigits(n, d, SessionKeys.Decimal(n / 10), SessionKeys.Digit(n % 10));
    }
  }

  lemma EndsInDigits(n: nat, d: nat, head: string, last: char)
    requires d < 10 && |head| >= 1 && SessionKeys.Decimal(n) == head + [last]
    ensures EndsIn(n, '9', SessionKeys.Digit(d)) <==> head[|head| - 1] == '9' && last == SessionKeys.Digit(d)
  {
    var text := head + [last];
    assert text[|text| - 1] == last && text[|text| - 2] == head[|head| - 1];
  }

  /** A charge stays pending exactly if its amount ends in 99, fails exactly if it ends in 98, else it succeeds. */
  lemma StatusByLastDigits(amount: int)
    ensures StatusFor(amount) == InProcess <==> EndsIn(amount, '9', '9')
    ensures StatusFor(amount) == Failure <==> EndsIn(amount, '9', '8')
  {
    if amount >= 0 {
      LastTwoDigits(amount, 9);
      LastTwoDigits(amount, 8);
    }
  }

  function Lower(c: char): char {
    if 'A' <= c <= 'Z' then c - 'A' + 'a' else c
  }

  /** The word stands in the text at i, in any case. */
  predicate StandsAt(text: string, i: nat, word: string) {
    i + |word| <= |text| && forall j :: 0 <= j < |word| ==> Lower(text[i + j]) == word[j]
  }

  ghost predicate Names(text: string, word: string) {
    exists i: nat :: StandsAt(text, i, word)
  }

  lemma StandsFirst(text: string, word: string)
    ensures word <= LowerCase(text) <==> StandsAt(text, 0, word)
  {
    var s := LowerCase(text);
    if StandsAt(text, 0, word) {
      assert s[..|word|] == word;
    }
    if word <= s {
      forall j | 0 <= j < |word| ensures Lower(text[0 + j]) == word[j] {
        assert s[j] == word[j];
      }
    }
  }

  lemma StandsLater(text: string, i: nat, word: string)
    requires text != ""
    ensures StandsAt(text[1..], i, word) <==> StandsAt(text, i + 1, word)
  {
    if StandsAt(text, i + 1, word) {
      forall j | 0 <= j < |word| ensures Lower(text[1..][i + j]) == word[j] {
        assert Lower(text[i + 1 + j]) == word[j];
      }
    }
  }

  lemma {:induction false} IncludesIsNamed(text: string, word: string)
    ensures Includes(LowerCase(text), word) <==> Names(text, word)
  {
    StandsFirst(text, word);
    if text != "" {
      assert LowerCase(text)[1..] == LowerCase(text[1..]);
      IncludesIsNamed(text[1..], word);
      if i: nat :| StandsAt(text[1..], i, word) {
        StandsLater(text, i, word);
      }
      if i: nat :| StandsAt(text, i, word) && i > 0 {
        StandsLater(text, i - 1, word);
      }
    }
  }

  /**
   * What a new key gets: the reference drawn for it, a status by its amount, an error exactly if it fails, and the
   * token drawn for it exactly if it succeeds and the biller's id names electricity, in whatever case.
   */
  lemma NewKeyGets(cache: Cache, key: string, amount: int, billerId: Option<string>, ref: string, token: string)
    requires key !in cache
    ensures var (cache', r) := Executed(cache, key, amount, billerId, ref, token);
      var electric := billerId.Some? && (Names(billerId.value, "electric") || Names(billerId.value, "ekedc")
                                         || Names(billerId.value, "nepa") || Names(billerId.value, "light"));
      && cache' == cache[key := r] && r.providerRef == ref
      && r.status == (if EndsIn(amount, '9', '9') then InProcess else if EndsIn(amount, '9', '8') then Failure
                      else Success)
      && r.token == (if r.status == Success && electric then Some(token) else None)
      && (r.error.Some? <==> r.status == Failure)
  {
    StatusByLastDigits(amount);
    if billerId.Some? {
      IncludesIsNamed(billerId.value, "electric");
      IncludesIsNamed(billerId.value, "ekedc");
      IncludesIsNamed(billerId.value, "nepa");
      IncludesIsNamed(billerId.value, "light");
    }
  }

  /**
   * A key that is known gets what is stored for it, whatever comes with it this time. A requery settles it if it is
   * pending, with its own reference and the token drawn now, and once settled it stays as it is; an unknown key fails.
   */
  lemma KnownKeyGets(cache: Cache, key: string, amount: int, billerId: Option<string>, ref: string, token: string,
                     later: string)
    ensures key in cache ==> Executed(cache, key, amount, billerId, ref, token) == (cache, cache[key])
    ensures var (cache', r) := Requeried(cache, key, token);
      if key !in cache then cache' == cache && r.status == Failure && r.token == None && r.error.Some?
      else
        && cache' == cache[key := r] && r.providerRef == cache[key].providerRef && r.error == cache[key].error
        && r.status == (if cache[key].status == InProcess then Success else cache[key].status)
        && r.token == (if cache[key].status == InProcess then Some(token) else cache[key].token)
        && Requeried(cache', key, later) == (cache', r)
  {
  }
}
