/** The helpers of src/utils.rs: the schedule sanity test, the token- and mint-account
    readers, and the two text formatters used in log messages. */
module Utils {
  import opened Errors
  import opened State
  import opened Base10
  import opened Ledger
  import opened Arith

  // ----- duration_sanity -----

  /** A stream may be created at `now` only if it starts in the future, ends after it starts,
      and its cliff, when set, lies within the schedule. */
  function DurationSanity(now: nat, start: nat, end: nat, cliff: nat): (ok: bool)
    ensures ok <==> now < start < end && (cliff == 0 || start <= cliff <= end)
  {
    var cliffCond := if cliff == 0 then true else start <= cliff && cliff <= end;
    now < start && start < end && cliffCond
  }

  /** A sane schedule has a valid shape, and at `now` nothing has been released yet. */
  lemma DurationSanityMeansNothingReleased(now: nat, ix: StreamInstruction)
    requires DurationSanity(now, ix.startTime, ix.endTime, ix.cliff)
    ensures ScheduleValid(ix)
    ensures forall d: TokenStreamData :: d.ix == ix ==> now < EffectiveCliff(d)
  {
  }

  // ----- unpack_token_account / unpack_mint_account -----

  /** Reads a token account: refused unless the token program owns the account and its data
      is an initialised token account. */
  function UnpackTokenAccount(env: Env, w: World, key: Pubkey): (r: Result<TokenAccount>)
    requires key in w.accounts
    ensures r.Ok? <==> w.accounts[key].owner == env.tokenProgramId && key in w.tokens
    ensures r.Ok? ==> r.value == w.tokens[key]
    ensures r.Err? ==> r.error == InvalidAccountData
  {
    if w.accounts[key].owner != env.tokenProgramId then Err(InvalidAccountData)
    else if key !in w.tokens then Err(InvalidAccountData)
    else Ok(w.tokens[key])
  }

  /** Reads a mint, giving its number of decimals; the owner is not checked. */
  function UnpackMintAccount(w: World, key: Pubkey): (r: Result<nat>)
    ensures r.Ok? <==> key in w.mints
    ensures r.Ok? ==> r.value == w.mints[key]
    ensures r.Err? ==> r.error == InvalidAccountData
  {
    if key in w.mints then Ok(w.mints[key]) else Err(InvalidAccountData)
  }

  // ----- pretty_time -----

  datatype Duration = Duration(days: nat, hours: nat, minutes: nat, seconds: nat)

  /** Splits a number of seconds into days, hours, minutes and seconds. */
  function TimeParts(t: nat): (p: Duration)
    ensures p.hours < 24 && p.minutes < 60 && p.seconds < 60
    ensures p.days * 86400 + p.hours * 3600 + p.minutes * 60 + p.seconds == t
  {
    DivDiv(t, 60, 60);
    DivDiv(t, 60 * 60, 24);
    Duration(t / (60 * 60 * 24), (t / (60 * 60)) % 24, (t / 60) % 60, t % 60)
  }

  /** "`d` days, `h` hours, `m` minutes, `s` seconds". */
  function PrettyTime(t: nat): (s: seq<char>)
    ensures var days := Decimal(t / (60 * 60 * 24)) + " days, ";
            |days| < |s| && s[..|days|] == days
    ensures |" seconds"| < |s| && s[|s| - |" seconds"|..] == " seconds"
  {
    var p := TimeParts(t);
    Decimal(p.days) + (" days, " + (Decimal(p.hours) + (" hours, " +
    (Decimal(p.minutes) + (" minutes, " + (Decimal(p.seconds) + " seconds"))))))
  }

  /** The length of the run of digits `r` starts with. */
  function DigitRun(r: seq<char>): (k: nat)
    ensures k <= |r| && IsDigits(r[..k])
    ensures k < |r| ==> !IsDigit(r[k])
  {
    if r == [] || !IsDigit(r[0]) then 0
    else
      var k := 1 + DigitRun(r[1..]);
      assert r[..k] == [r[0]] + r[1..][..k - 1];
      k
  }

  lemma {:induction false} DigitRunOf(ds: seq<char>, x: seq<char>)
    requires IsDigits(ds) && (x == [] || !IsDigit(x[0]))
    ensures DigitRun(ds + x) == |ds|
    decreases |ds|
  {
    if ds != [] {
      assert (ds + x)[1..] == ds[1..] + x;
      DigitRunOf(ds[1..], x);
    } else {
      assert ds + x == x;
    }
  }

  /** A number printed by `{}` is read back from the front of a text when a non-digit
      follows it. */
  lemma DecimalPrefix(a: nat, x: seq<char>, b: nat, y: seq<char>)
    requires x != [] && !IsDigit(x[0]) && y != [] && !IsDigit(y[0])
    requires Decimal(a) + x == Decimal(b) + y
    ensures a == b && x == y
  {
    DigitRunOf(Decimal(a), x);
    DigitRunOf(Decimal(b), y);
    assert Decimal(a) == (Decimal(a) + x)[..|Decimal(a)|];
    assert Decimal(b) == (Decimal(b) + y)[..|Decimal(b)|];
    assert x == (Decimal(a) + x)[|Decimal(a)|..];
    assert y == (Decimal(b) + y)[|Decimal(b)|..];
  }

  /** A number followed by a tag that starts with a non-digit is read back, and so is
      what follows the tag. */
  lemma DecimalThenTag(a: nat, b: nat, tag: seq<char>, x: seq<char>, y: seq<char>)
    requires tag != [] && !IsDigit(tag[0])
    requires Decimal(a) + (tag + x) == Decimal(b) + (tag + y)
    ensures a == b && x == y
  {
    DecimalPrefix(a, tag + x, b, tag + y);
    assert x == (tag + x)[|tag|..];
    assert y == (tag + y)[|tag|..];
  }

  /** Different durations print differently. */
  lemma PrettyTimeInjective(t1: nat, t2: nat)
    requires PrettyTime(t1) == PrettyTime(t2)
    ensures t1 == t2
  {
    var p, q := TimeParts(t1), TimeParts(t2);
    var s1, s2 := Decimal(p.seconds) + " seconds", Decimal(q.seconds) + " seconds";
    var m1, m2 := Decimal(p.minutes) + (" minutes, " + s1), Decimal(q.minutes) + (" minutes, " + s2);
    var h1, h2 := Decimal(p.hours) + (" hours, " + m1), Decimal(q.hours) + (" hours, " + m2);
    DecimalThenTag(p.days, q.days, " days, ", h1, h2);
    DecimalThenTag(p.hours, q.hours, " hours, ", m1, m2);
    DecimalThenTag(p.minutes, q.minutes, " minutes, ", s1, s2);
    DecimalPrefix(p.seconds, " seconds", q.seconds, " seconds");
  }

  // ----- encode_base10 -----

  /** `r` is how a token amount reads with `d` decimal places: a whole part of digits with no
      leading zero (except a lone "0"), then optionally a '.' and at most `d` fraction digits,
      the last of which is not '0'. */
  predicate IsAmountText(r: seq<char>, d: nat) {
    var k := DigitRun(r);
    1 <= k && (k > 1 ==> r[0] != '0') &&
    (k < |r| ==> r[k] == '.' && k + 1 < |r| && IsDigits(r[k + 1..]) && |r| - (k + 1) <= d &&
                 r[|r| - 1] != '0')
  }

  /** The amount, in the token's smallest units, that an amount text denotes. */
  function AmountValue(r: seq<char>, d: nat): nat
    requires IsAmountText(r, d)
  {
    var k := DigitRun(r);
    if k == |r| then DigitsValue(r) * Pow10(d)
    else DigitsValue(r[..k] + r[k + 1..]) * Pow10(d - (|r| - (k + 1)))
  }

  /** Formats `amount` smallest units of a token with `decimalPlaces` decimals: the amount is
      zero-padded to more than `decimalPlaces` digits, a '.' is inserted before the last
      `decimalPlaces` of them, and trailing '0's and then a trailing '.' are removed. */
  method EncodeBase10(amount: nat, decimalPlaces: nat) returns (r: seq<char>)
    ensures IsAmountText(r, decimalPlaces) && AmountValue(r, decimalPlaces) == amount
  {
    var s := ZeroPadded(amount, 1 + decimalPlaces);
    ZeroPaddedValue(amount, 1 + decimalPlaces);
    var at := |s| - decimalPlaces;
    ghost var whole, frac := s[..at], s[at..];
    DigitsSplit(s, at);
    s := s[..at] + ['.'] + s[at..];
    r := TrimEnd(TrimEnd(s, '0'), '.');
    EncodeBase10Correct(whole, frac, r);
  }

  /** Cutting a digit string with no leading zero before `at` gives two digit strings, the
      first non-empty and without a leading zero. */
  lemma DigitsSplit(s: seq<char>, at: nat)
    requires IsDigits(s) && 1 <= at <= |s| && (at > 1 ==> s[0] != '0')
    ensures s[..at] != [] && IsDigits(s[..at]) && IsDigits(s[at..]) && s[..at] + s[at..] == s
    ensures |s[..at]| > 1 ==> s[..at][0] != '0'
  {
  }

  /** Where the two trims stop: the fraction loses its trailing zeros, and the '.' goes too
      when nothing is left after it. */
  lemma TrimmedShape(whole: seq<char>, frac: seq<char>)
    requires whole != [] && IsDigits(whole) && IsDigits(frac)
    ensures var kept := TrimEnd(frac, '0');
            TrimEnd(TrimEnd(whole + ['.'] + frac, '0'), '.') ==
              if kept == [] then whole else whole + ['.'] + kept
  {
    var kept := TrimEnd(frac, '0');
    TrimEndStopsAt(whole + ['.'], frac, '0');
    if kept == [] {
      assert whole + ['.'] + kept == whole + ['.'];
      TrimEndStopsAt(whole, ['.'], '.');
      assert TrimEnd(['.'], '.') == [];
      assert whole + [] == whole;
    } else {
      assert IsDigit(kept[|kept| - 1]);
    }
  }

  /** The text built from a whole part and a kept fraction is an amount text, and denotes
      the digits of both scaled up by the fraction digits that were trimmed. */
  lemma AmountTextOf(whole: seq<char>, kept: seq<char>, d: nat)
    requires whole != [] && IsDigits(whole) && (|whole| > 1 ==> whole[0] != '0')
    requires IsDigits(kept) && |kept| <= d && (kept == [] || kept[|kept| - 1] != '0')
    ensures var r := if kept == [] then whole else whole + ['.'] + kept;
            IsAmountText(r, d) && AmountValue(r, d) == DigitsValue(whole + kept) * Pow10(d - |kept|)
  {
    if kept == [] {
      DigitRunOf(whole, []);
      assert whole + [] == whole;
    } else {
      var r := whole + ['.'] + kept;
      assert r == whole + (['.'] + kept);
      DigitRunOf(whole, ['.'] + kept);
      assert r[..|whole|] == whole && r[|whole| + 1..] == kept;
    }
  }

  /** Inserting the '.' before the last `|frac|` digits and trimming gives an amount text
      for the number the digits denote. */
  lemma EncodeBase10Correct(whole: seq<char>, frac: seq<char>, r: seq<char>)
    requires whole != [] && IsDigits(whole) && (|whole| > 1 ==> whole[0] != '0')
    requires IsDigits(frac)
    requires r == TrimEnd(TrimEnd(whole + ['.'] + frac, '0'), '.')
    ensures IsDigits(whole + frac)
    ensures IsAmountText(r, |frac|) && AmountValue(r, |frac|) == DigitsValue(whole + frac)
  {
    var kept := TrimEnd(frac, '0');
    TrimmedZeros(frac);
    TrimmedShape(whole, frac);
    AmountTextOf(whole, kept, |frac|);
    var cut := |frac| - |kept|;
    ZeroPaddingValue(whole + kept, cut);
    assert whole + frac == (whole + kept) + Zeros(cut);
  }
}
