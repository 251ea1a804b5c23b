/** The USSD channel: the whole accumulated input is read again at every step, and no session is kept.
    That reading is shown equal to a session automaton stepped once per entry. */
module Ussd {
  import opened Common
  import opened MoneyTypes
  import opened Ledger
  import opened Transactions
  import opened Payments
  import opened Worlds
  import opened Memory
  import opened Merchants
  import opened Services
  import opened Amounts
  import opened Confluence

  const MAX_AMOUNT: nat := 1_000_000
  const MAX_ATTEMPTS: nat := 3

  /** A positive plain amount within the cap, in minor units. */
  function ParseAmount(text: string): (r: Option<nat>)
    ensures r.Some? ==> 0 < r.value <= MAX_AMOUNT
  {
    match FromUserInput(text)
    case Some(minor) => if 0 < minor <= MAX_AMOUNT then Some(minor) else None
    case None => None
  }

  /** An entry is an amount when it writes one, of at least a cent and at most ten thousand dollars, and then
      it is that amount. */
  lemma AmountIsAsWritten(text: string, minor: nat)
    ensures ParseAmount(text) == Some(minor) <==> Writes(text, minor) && 1 <= minor <= 10_000 * 100
  {
    ReadsWhatIsWritten(text, minor);
  }

  // ---- the entries of a text ---------------------------------------------------------

  /** Python's `split("*")`. */
  function Split(text: string): (pieces: seq<string>)
    ensures pieces != []
  {
    if text == "" then [""] else Grow(text[0], Split(text[1..]))
  }

  /** A star starts a new first piece; any other character joins the one there is. */
  function Grow(c: char, pieces: seq<string>): (r: seq<string>)
    requires pieces != []
    ensures r != []
  {
    if c == '*' then [""] + pieces else [[c] + pieces[0]] + pieces[1..]
  }

  function Join(pieces: seq<string>): string
    requires pieces != []
  {
    if |pieces| == 1 then pieces[0] else pieces[0] + "*" + Join(pieces[1..])
  }

  /** Splitting loses nothing: joining the pieces gives the text back, and no piece holds a star. */
  lemma {:induction false} SplitThenJoin(text: string)
    ensures Join(Split(text)) == text
    ensures forall p | p in Split(text) :: '*' !in p
  {
    if text != "" {
      SplitThenJoin(text[1..]);
      var rest := Split(text[1..]);
      assert text == [text[0]] + text[1..];
      JoinGrows(text[0], rest);
      assert forall p | p in Split(text) :: p == "" || p in rest || (text[0] != '*' && p == [text[0]] + rest[0]);
    }
  }

  lemma JoinCons(first: string, rest: seq<string>)
    requires rest != []
    ensures Join([first] + rest) == first + "*" + Join(rest)
  {
    assert ([first] + rest)[1..] == rest;
  }

  lemma JoinGrows(c: char, pieces: seq<string>)
    requires pieces != []
    ensures Join(Grow(c, pieces)) == [c] + Join(pieces)
  {
    if c == '*' {
      JoinCons("", pieces);
    } else if |pieces| > 1 {
      var later := Join(pieces[1..]);
      JoinCons([c] + pieces[0], pieces[1..]);
      assert Join(pieces) == pieces[0] + "*" + later;
      assert ([c] + pieces[0]) + "*" + later == [c] + (pieces[0] + "*" + later);
    }
  }

  function NonEmpty(pieces: seq<string>): (r: seq<string>)
    ensures forall p :: p in r <==> p in pieces && p != ""
  {
    if pieces == [] then [] else (if pieces[0] == "" then [] else [pieces[0]]) + NonEmpty(pieces[1..])
  }

  lemma {:induction false} NonEmptyConcat(s: seq<string>, t: seq<string>)
    ensures NonEmpty(s + t) == NonEmpty(s) + NonEmpty(t)
  {
    if s == [] {
      assert s + t == t;
    } else {
      SplitFirst(s, t);
      NonEmptyConcat(s[1..], t);
    }
  }

  /** What the customer has entered so far. */
  function Tokens(text: string): seq<string> {
    NonEmpty(Split(text))
  }

  lemma {:induction false} SplitConcat(s: string, t: string)
    ensures Split(s + ("*" + t)) == Split(s) + Split(t)
  {
    if s == "" {
      assert "" + ("*" + t) == ['*'] + t;
      SplitCons('*', t);
    } else {
      var c, front := s[0], s[1..];
      SplitConcat(front, t);
      assert s + ("*" + t) == [c] + (front + ("*" + t));
      SplitCons(c, front + ("*" + t));
      GrowConcat(c, Split(front), Split(t));
    }
  }

  lemma SplitCons(c: char, text: string)
    ensures Split([c] + text) == Grow(c, Split(text))
  {
    assert ([c] + text)[1..] == text;
  }

  lemma GrowConcat(c: char, a: seq<string>, b: seq<string>)
    requires a != []
    ensures Grow(c, a + b) == Grow(c, a) + b
  {
    if c == '*' {
      assert [""] + (a + b) == ([""] + a) + b;
    } else {
      SplitFirst(a, b);
      assert [[c] + a[0]] + (a[1..] + b) == ([[c] + a[0]] + a[1..]) + b;
    }
  }

  /** One more entry appended to the accumulated text appends its tokens. */
  lemma TokensConcat(s: string, t: string)
    ensures Tokens(s + "*" + t) == Tokens(s) + Tokens(t)
  {
    SplitConcat(s, t);
    assert s + "*" + t == s + ("*" + t);
    NonEmptyConcat(Split(s), Split(t));
  }

  // ---- the session automaton -----------------------------------------------------------

  datatype Prompt =
    | AskTill
    | BadTill
    | AskAmount(merchant: Merchant)
    | BadAmount(merchant: Merchant)
    | AskChoice(merchant: Merchant, minor: nat)

  datatype Closing = InactiveTill | TooMany | Cancelled

  /** What a text amounts to: keep the session open, end it, or end it by paying. */
  datatype Reading = Con(prompt: Prompt) | End(closing: Closing) | Pay(merchant: Merchant, minor: nat)

  /** A session remembers which field it is at and how often that field has been missed. */
  datatype Session =
    | AtTill(misses: nat)
    | AtAmount(merchant: Merchant, misses: nat)
    | AtChoice(merchant: Merchant, minor: nat, misses: nat)
    | Over(reading: Reading)

  const DIALLED: Session := AtTill(0)

  function OnToken(directory: seq<Merchant>, s: Session, token: string): Session {
    match s
    case AtTill(misses) => (
      match GetByShortCode(directory, token)
      case Some(m) => if m.active then AtAmount(m, 0) else Over(End(InactiveTill))
      case None => if misses + 1 >= MAX_ATTEMPTS then Over(End(TooMany)) else AtTill(misses + 1)
    )
    case AtAmount(m, misses) => (
      match ParseAmount(token)
      case Some(minor) => AtChoice(m, minor, 0)
      case None => if misses + 1 >= MAX_ATTEMPTS then Over(End(TooMany)) else AtAmount(m, misses + 1)
    )
    case AtChoice(m, minor, misses) =>
      if token == "1" then Over(Pay(m, minor))
      else if token == "2" then Over(End(Cancelled))
      else if misses + 1 >= MAX_ATTEMPTS then Over(End(TooMany))
      else AtChoice(m, minor, misses + 1)
    case Over(_) => s
  }

  function OnTokens(directory: seq<Merchant>, s: Session, tokens: seq<string>): Session
    decreases |tokens|
  {
    if tokens == [] then s else OnTokens(directory, OnToken(directory, s, tokens[0]), tokens[1..])
  }

  /** What a session says next. */
  function Says(s: Session): Reading {
    match s
    case AtTill(misses) => Con(if misses > 0 then BadTill else AskTill)
    case AtAmount(m, misses) => Con(if misses > 0 then BadAmount(m) else AskAmount(m))
    case AtChoice(m, minor, _) => Con(AskChoice(m, minor))
    case Over(reading) => reading
  }

  function ReadTokens(directory: seq<Merchant>, tokens: seq<string>): Reading {
    Says(OnTokens(directory, DIALLED, tokens))
  }

  function ReadText(directory: seq<Merchant>, text: string): Reading {
    ReadTokens(directory, Tokens(text))
  }

  // ---- the stateless reading ------------------------------------------------------------

  /** Three scans over the whole input, each with its own counter of misses: the same reading the
      automaton comes to, and what the entries spell. */
  method Interpret(directory: seq<Merchant>, text: string) returns (r: Reading)
    ensures r == ReadText(directory, text) && Spelt(directory, Tokens(text), r)
  {
    r := ReadTill(directory, Tokens(text));
    ReadIsSpelt(directory, Tokens(text));
  }

  /** The first scan looks for a till. */
  method ReadTill(directory: seq<Merchant>, parts: seq<string>) returns (r: Reading)
    ensures r == ReadTokens(directory, parts)
  {
    var idx := 0;
    var merchant: Option<Merchant> := None;
    var misses := 0;
    while idx < |parts|
      invariant 0 <= idx <= |parts| && 0 <= misses < MAX_ATTEMPTS && merchant == None
      invariant OnTokens(directory, DIALLED, parts) == OnTokens(directory, AtTill(misses), parts[idx..])
    {
      var candidate := GetByShortCode(directory, parts[idx]);
      Peels(directory, AtTill(misses), parts, idx);
      idx := idx + 1;
      if candidate.Some? && candidate.value.active {
        merchant := candidate;
        break;
      }
      if candidate.Some? {
        OverStays(directory, End(InactiveTill), parts[idx..]);
        return End(InactiveTill);
      }
      misses := misses + 1;
      if misses >= MAX_ATTEMPTS {
        OverStays(directory, End(TooMany), parts[idx..]);
        return End(TooMany);
      }
    }
    if merchant == None {
      return Con(if misses > 0 then BadTill else AskTill);
    }
    r := ReadAmount(directory, parts, idx, merchant.value);
  }

  /** The second scan, for an amount. */
  method ReadAmount(directory: seq<Merchant>, parts: seq<string>, start: nat, m: Merchant) returns (r: Reading)
    requires start <= |parts|
    ensures r == Says(OnTokens(directory, AtAmount(m, 0), parts[start..]))
  {
    var idx := start;
    var amount: Option<nat> := None;
    var misses := 0;
    while idx < |parts|
      invariant start <= idx <= |parts| && 0 <= misses < MAX_ATTEMPTS && amount == None
      invariant OnTokens(directory, AtAmount(m, 0), parts[start..])
             == OnTokens(directory, AtAmount(m, misses), parts[idx..])
    {
      var candidate := ParseAmount(parts[idx]);
      Peels(directory, AtAmount(m, misses), parts, idx);
      idx := idx + 1;
      if candidate.Some? {
        amount := candidate;
        break;
      }
      misses := misses + 1;
      if misses >= MAX_ATTEMPTS {
        OverStays(directory, End(TooMany), parts[idx..]);
        return End(TooMany);
      }
    }
    if amount == None {
      return Con(if misses > 0 then BadAmount(m) else AskAmount(m));
    }
    r := ReadChoice(directory, parts, idx, m, amount.value);
  }

  /** The third scan, for the choice. */
  method ReadChoice(directory: seq<Merchant>, parts: seq<string>, start: nat, m: Merchant, minor: nat) returns (r: Reading)
    requires start <= |parts|
    ensures r == Says(OnTokens(directory, AtChoice(m, minor, 0), parts[start..]))
    ensures 0 < start ==>
      (r == Pay(m, minor) <==> Chosen(parts, start - 1, "1")) && (r == End(Cancelled) <==> Chosen(parts, start - 1, "2"))
  {
    if 0 < start <= |parts| {
      ChoiceSays(directory, parts, m, minor, start - 1);
    }
    var idx := start;
    var confirmed: Option<bool> := None;
    var misses := 0;
    while idx < |parts|
      invariant start <= idx <= |parts| && 0 <= misses < MAX_ATTEMPTS && confirmed == None
      invariant OnTokens(directory, AtChoice(m, minor, 0), parts[start..])
             == OnTokens(directory, AtChoice(m, minor, misses), parts[idx..])
    {
      var choice := parts[idx];
      Peels(directory, AtChoice(m, minor, misses), parts, idx);
      idx := idx + 1;
      if choice == "1" {
        confirmed := Some(true);
        OverStays(directory, Pay(m, minor), parts[idx..]);
        break;
      }
      if choice == "2" {
        confirmed := Some(false);
        OverStays(directory, End(Cancelled), parts[idx..]);
        break;
      }
      misses := misses + 1;
      if misses >= MAX_ATTEMPTS {
        OverStays(directory, End(TooMany), parts[idx..]);
        return End(TooMany);
      }
    }
    r := if confirmed == None then Con(AskChoice(m, minor))
         else if !confirmed.value then End(Cancelled)
         else Pay(m, minor);
  }

  lemma Peels(directory: seq<Merchant>, s: Session, parts: seq<string>, i: nat)
    requires i < |parts|
    ensures OnTokens(directory, s, parts[i..]) == OnTokens(directory, OnToken(directory, s, parts[i]), parts[i + 1..])
  {
    assert parts[i..][1..] == parts[i + 1..];
  }

  // ---- what the entries spell, told without the automaton ------------------------------------------

  /** The first entries are no till anybody has; three of them at most are looked at. */
  ghost predicate TillsMissed(directory: seq<Merchant>, tokens: seq<string>, n: nat) {
    n <= |tokens| && n <= 3 && forall x, m | 0 <= x < n && m in directory :: m.shortCode != tokens[x]
  }

  /** The entry in this place is the till of a merchant, after at most two that were nobody's. */
  ghost predicate TillAt(directory: seq<Merchant>, tokens: seq<string>, i: nat, m: Merchant) {
    i < |tokens| && i <= 2 && TillsMissed(directory, tokens, i) && GetByShortCode(directory, tokens[i]) == Some(m)
  }

  /** So many entries after a place are not amounts. */
  ghost predicate AmountsMissed(tokens: seq<string>, i: nat, n: nat) {
    i + n < |tokens| && n <= 3 && forall x | i < x <= i + n :: ParseAmount(tokens[x]) == None
  }

  ghost predicate AmountAt(tokens: seq<string>, i: nat, j: nat, minor: nat) {
    i < j < |tokens| && j - i <= 3 && AmountsMissed(tokens, i, j - i - 1) && ParseAmount(tokens[j]) == Some(minor)
  }

  /** So many entries after a place are neither yes nor no. */
  ghost predicate ChoicesMissed(tokens: seq<string>, j: nat, n: nat) {
    j + n < |tokens| && n <= 3 && forall x | j < x <= j + n :: tokens[x] != "1" && tokens[x] != "2"
  }

  ghost predicate ChoiceAt(tokens: seq<string>, j: nat, k: nat, choice: string) {
    j < k < |tokens| && k - j <= 3 && ChoicesMissed(tokens, j, k - j - 1) && tokens[k] == choice
  }

  ghost predicate Chosen(tokens: seq<string>, j: nat, choice: string) {
    exists k :: ChoiceAt(tokens, j, k, choice)
  }

  /** An active till, and then an amount for it. */
  ghost predicate Billed(directory: seq<Merchant>, tokens: seq<string>, m: Merchant, i: nat, minor: nat, j: nat) {
    m.active && TillAt(directory, tokens, i, m) && AmountAt(tokens, i, j, minor)
  }

  /** When the entries amount to a reading: to a payment, when they are an active till, an amount and "1", each
      after at most two entries that were none, whatever follows; to a cancellation, with "2" for "1"; to
      each other end and to each prompt in its own way. */
  ghost predicate Spelt(directory: seq<Merchant>, tokens: seq<string>, r: Reading) {
    match r
    case Pay(m, minor) => exists i, j, k :: Billed(directory, tokens, m, i, minor, j) && ChoiceAt(tokens, j, k, "1")
    case End(Cancelled) =>
      exists m, i, minor, j, k :: Billed(directory, tokens, m, i, minor, j) && ChoiceAt(tokens, j, k, "2")
    case End(InactiveTill) => exists i, m :: TillAt(directory, tokens, i, m) && !m.active
    case End(TooMany) =>
      || TillsMissed(directory, tokens, 3)
      || (exists i, m :: TillAt(directory, tokens, i, m) && m.active && AmountsMissed(tokens, i, 3))
      || (exists m, i, minor, j :: Billed(directory, tokens, m, i, minor, j) && ChoicesMissed(tokens, j, 3))
    case Con(AskTill) => tokens == []
    case Con(BadTill) => 1 <= |tokens| <= 2 && TillsMissed(directory, tokens, |tokens|)
    case Con(AskAmount(m)) => m.active && exists i: nat :: TillAt(directory, tokens, i, m) && |tokens| == i + 1
    case Con(BadAmount(m)) =>
      m.active && exists i: nat ::
        TillAt(directory, tokens, i, m) && 1 <= |tokens| - i - 1 <= 2 && AmountsMissed(tokens, i, |tokens| - i - 1)
    case Con(AskChoice(m, minor)) =>
      exists i, j ::
        Billed(directory, tokens, m, i, minor, j) && |tokens| - j - 1 <= 2 && ChoicesMissed(tokens, j, |tokens| - j - 1)
  }

  lemma {:induction false} TillsScanned(directory: seq<Merchant>, tokens: seq<string>, n: nat)
    requires TillsMissed(directory, tokens, n) && n <= 2
    ensures OnTokens(directory, DIALLED, tokens) == OnTokens(directory, AtTill(n), tokens[n..])
  {
    if n == 0 {
      assert tokens[0..] == tokens;
    } else {
      TillsScanned(directory, tokens, n - 1);
      Peels(directory, AtTill(n - 1), tokens, n - 1);
    }
  }

  lemma {:induction false} AmountsScanned(directory: seq<Merchant>, tokens: seq<string>, m: Merchant, i: nat, n: nat)
    requires AmountsMissed(tokens, i, n) && n <= 2
    ensures OnTokens(directory, AtAmount(m, 0), tokens[i + 1..]) == OnTokens(directory, AtAmount(m, n), tokens[i + 1 + n..])
  {
    if n > 0 {
      AmountsScanned(directory, tokens, m, i, n - 1);
      Peels(directory, AtAmount(m, n - 1), tokens, i + n);
    }
  }

  lemma {:induction false} ChoicesScanned(
    directory: seq<Merchant>, tokens: seq<string>, m: Merchant, minor: nat, j: nat, n: nat)
    requires ChoicesMissed(tokens, j, n) && n <= 2
    ensures OnTokens(directory, AtChoice(m, minor, 0), tokens[j + 1..])
         == OnTokens(directory, AtChoice(m, minor, n), tokens[j + 1 + n..])
  {
    if n > 0 {
      ChoicesScanned(directory, tokens, m, minor, j, n - 1);
      Peels(directory, AtChoice(m, minor, n - 1), tokens, j + n);
    }
  }

  /** Up to the till. */
  lemma TillReached(directory: seq<Merchant>, tokens: seq<string>, i: nat, m: Merchant)
    requires TillAt(directory, tokens, i, m)
    ensures m.active ==> OnTokens(directory, DIALLED, tokens) == OnTokens(directory, AtAmount(m, 0), tokens[i + 1..])
    ensures !m.active ==> ReadTokens(directory, tokens) == End(InactiveTill)
  {
    TillsScanned(directory, tokens, i);
    Peels(directory, AtTill(i), tokens, i);
    OverStays(directory, End(InactiveTill), tokens[i + 1..]);
  }

  /** Up to the amount. */
  lemma AmountReached(directory: seq<Merchant>, tokens: seq<string>, m: Merchant, i: nat, minor: nat, j: nat)
    requires Billed(directory, tokens, m, i, minor, j)
    ensures OnTokens(directory, DIALLED, tokens) == OnTokens(directory, AtChoice(m, minor, 0), tokens[j + 1..])
  {
    TillReached(directory, tokens, i, m);
    AmountsScanned(directory, tokens, m, i, j - i - 1);
    Peels(directory, AtAmount(m, j - i - 1), tokens, j);
  }

  lemma ChoiceSaid(
    directory: seq<Merchant>, tokens: seq<string>, m: Merchant, minor: nat, j: nat, k: nat, choice: string)
    requires ChoiceAt(tokens, j, k, choice) && choice in {"1", "2"}
    ensures Says(OnTokens(directory, AtChoice(m, minor, 0), tokens[j + 1..]))
         == if choice == "1" then Pay(m, minor) else End(Cancelled)
  {
    ChoicesScanned(directory, tokens, m, minor, j, k - j - 1);
    Peels(directory, AtChoice(m, minor, k - j - 1), tokens, k);
    OverStays(directory, if choice == "1" then Pay(m, minor) else End(Cancelled), tokens[k + 1..]);
  }

  /** From the amount on: yes if the first entry that is an answer, of three at most, is a yes, and no if it
      is a no. */
  lemma ChoiceSays(directory: seq<Merchant>, tokens: seq<string>, m: Merchant, minor: nat, j: nat)
    requires j < |tokens|
    ensures var r := Says(OnTokens(directory, AtChoice(m, minor, 0), tokens[j + 1..]));
      (r == Pay(m, minor) <==> Chosen(tokens, j, "1")) && (r == End(Cancelled) <==> Chosen(tokens, j, "2"))
  {
    forall k, choice | choice in {"1", "2"} && ChoiceAt(tokens, j, k, choice)
      ensures Says(OnTokens(directory, AtChoice(m, minor, 0), tokens[j + 1..]))
           == if choice == "1" then Pay(m, minor) else End(Cancelled)
    {
      ChoiceSaid(directory, tokens, m, minor, j, k, choice);
    }
    var n := ChoicesEnd(tokens, j);
    if n == 3 {
      ChoicesMissedThrice(directory, tokens, m, minor, j);
    } else if j + n + 1 == |tokens| {
      ChoicesScanned(directory, tokens, m, minor, j, n);
      assert tokens[j + 1 + n..] == [];
    } else {
      assert ChoiceAt(tokens, j, j + n + 1, tokens[j + n + 1]);
    }
  }

  lemma ChoicesMissedThrice(directory: seq<Merchant>, tokens: seq<string>, m: Merchant, minor: nat, j: nat)
    requires ChoicesMissed(tokens, j, 3)
    ensures Says(OnTokens(directory, AtChoice(m, minor, 0), tokens[j + 1..])) == End(TooMany)
  {
    ChoicesScanned(directory, tokens, m, minor, j, 2);
    Peels(directory, AtChoice(m, minor, 2), tokens, j + 3);
    OverStays(directory, End(TooMany), tokens[j + 4..]);
  }

  /** Up to the choice. */
  lemma ChoiceReached(
    directory: seq<Merchant>, tokens: seq<string>, m: Merchant, i: nat, minor: nat, j: nat, k: nat, choice: string)
    requires Billed(directory, tokens, m, i, minor, j) && ChoiceAt(tokens, j, k, choice) && choice in {"1", "2"}
    ensures ReadTokens(directory, tokens) == if choice == "1" then Pay(m, minor) else End(Cancelled)
  {
    AmountReached(directory, tokens, m, i, minor, j);
    ChoiceSaid(directory, tokens, m, minor, j, k, choice);
  }

  /** A field missed three times. */
  lemma TillsRunOut(directory: seq<Merchant>, tokens: seq<string>)
    requires TillsMissed(directory, tokens, 3)
    ensures ReadTokens(directory, tokens) == End(TooMany)
  {
    TillsScanned(directory, tokens, 2);
    Peels(directory, AtTill(2), tokens, 2);
    OverStays(directory, End(TooMany), tokens[3..]);
  }

  lemma AmountsRunOut(directory: seq<Merchant>, tokens: seq<string>, i: nat, m: Merchant)
    requires m.active && TillAt(directory, tokens, i, m) && AmountsMissed(tokens, i, 3)
    ensures ReadTokens(directory, tokens) == End(TooMany)
  {
    TillReached(directory, tokens, i, m);
    AmountsScanned(directory, tokens, m, i, 2);
    Peels(directory, AtAmount(m, 2), tokens, i + 3);
    OverStays(directory, End(TooMany), tokens[i + 4..]);
  }

  lemma ChoicesRunOut(directory: seq<Merchant>, tokens: seq<string>, m: Merchant, i: nat, minor: nat, j: nat)
    requires Billed(directory, tokens, m, i, minor, j) && ChoicesMissed(tokens, j, 3)
    ensures ReadTokens(directory, tokens) == End(TooMany)
  {
    AmountReached(directory, tokens, m, i, minor, j);
    ChoicesMissedThrice(directory, tokens, m, minor, j);
  }

  /** Where a scan of at most three entries stops: at one that is no miss, at the third miss, or at the end. */
  lemma TillsEnd(directory: seq<Merchant>, tokens: seq<string>) returns (n: nat)
    ensures TillsMissed(directory, tokens, n)
    ensures n < 3 && n < |tokens| ==> GetByShortCode(directory, tokens[n]).Some?
  {
    n := 0;
    while n < 3 && n < |tokens| && GetByShortCode(directory, tokens[n]) == None
      invariant TillsMissed(directory, tokens, n)
    {
      n := n + 1;
    }
  }

  lemma AmountsEnd(tokens: seq<string>, i: nat) returns (n: nat)
    requires i < |tokens|
    ensures AmountsMissed(tokens, i, n)
    ensures n < 3 && i + n + 1 < |tokens| ==> ParseAmount(tokens[i + n + 1]).Some?
  {
    n := 0;
    while n < 3 && i + n + 1 < |tokens| && ParseAmount(tokens[i + n + 1]) == None
      invariant AmountsMissed(tokens, i, n)
    {
      n := n + 1;
    }
  }

  lemma ChoicesEnd(tokens: seq<string>, j: nat) returns (n: nat)
    requires j < |tokens|
    ensures ChoicesMissed(tokens, j, n)
    ensures n < 3 && j + n + 1 < |tokens| ==> tokens[j + n + 1] in {"1", "2"}
  {
    n := 0;
    while n < 3 && j + n + 1 < |tokens| && tokens[j + n + 1] != "1" && tokens[j + n + 1] != "2"
      invariant ChoicesMissed(tokens, j, n)
    {
      n := n + 1;
    }
  }

  /** Whatever the entries read as, they spell. */
  lemma ReadIsSpelt(directory: seq<Merchant>, tokens: seq<string>)
    ensures Spelt(directory, tokens, ReadTokens(directory, tokens))
  {
    var n := TillsEnd(directory, tokens);
    if n == 3 {
      TillsRunOut(directory, tokens);
    } else if n == |tokens| {
      TillsScanned(directory, tokens, n);
    } else {
      var m := GetByShortCode(directory, tokens[n]).value;
      assert TillAt(directory, tokens, n, m);
      TillReached(directory, tokens, n, m);
      if m.active {
        FromTillIsSpelt(directory, tokens, n, m);
      }
    }
  }

  lemma FromTillIsSpelt(directory: seq<Merchant>, tokens: seq<string>, i: nat, m: Merchant)
    requires m.active && TillAt(directory, tokens, i, m)
    ensures Spelt(directory, tokens, ReadTokens(directory, tokens))
  {
    var n := AmountsEnd(tokens, i);
    if n == 3 {
      AmountsRunOut(directory, tokens, i, m);
    } else if i + n + 1 == |tokens| {
      EndsAtAmount(directory, tokens, i, m, n);
    } else {
      var minor := ParseAmount(tokens[i + n + 1]).value;
      assert Billed(directory, tokens, m, i, minor, i + n + 1);
      FromAmountIsSpelt(directory, tokens, m, i, minor, i + n + 1);
    }
  }

  lemma FromAmountIsSpelt(directory: seq<Merchant>, tokens: seq<string>, m: Merchant, i: nat, minor: nat, j: nat)
    requires Billed(directory, tokens, m, i, minor, j)
    ensures Spelt(directory, tokens, ReadTokens(directory, tokens))
  {
    var n := ChoicesEnd(tokens, j);
    if n == 3 {
      ChoicesRunOut(directory, tokens, m, i, minor, j);
    } else if j + n + 1 == |tokens| {
      EndsAtChoice(directory, tokens, m, i, minor, j, n);
    } else {
      var k := j + n + 1;
      assert ChoiceAt(tokens, j, k, tokens[k]);
      ChoiceReached(directory, tokens, m, i, minor, j, k, tokens[k]);
    }
  }

  /** And whatever they spell, they read as. */
  lemma SpeltIsRead(directory: seq<Merchant>, tokens: seq<string>, r: Reading)
    requires Spelt(directory, tokens, r)
    ensures ReadTokens(directory, tokens) == r
  {
    match r
    case Pay(m, minor) =>
      var i, j, k :| Billed(directory, tokens, m, i, minor, j) && ChoiceAt(tokens, j, k, "1");
      ChoiceReached(directory, tokens, m, i, minor, j, k, "1");
    case End(closing) => EndSpeltIsRead(directory, tokens, closing);
    case Con(prompt) => PromptSpeltIsRead(directory, tokens, prompt);
  }

  lemma EndSpeltIsRead(directory: seq<Merchant>, tokens: seq<string>, closing: Closing)
    requires Spelt(directory, tokens, End(closing))
    ensures ReadTokens(directory, tokens) == End(closing)
  {
    match closing
    case Cancelled =>
      var m, i, minor, j, k :| Billed(directory, tokens, m, i, minor, j) && ChoiceAt(tokens, j, k, "2");
      ChoiceReached(directory, tokens, m, i, minor, j, k, "2");
    case InactiveTill =>
      var i, m :| TillAt(directory, tokens, i, m) && !m.active;
      TillReached(directory, tokens, i, m);
    case TooMany =>
      if TillsMissed(directory, tokens, 3) {
        TillsRunOut(directory, tokens);
      } else if i, m :| TillAt(directory, tokens, i, m) && m.active && AmountsMissed(tokens, i, 3) {
        AmountsRunOut(directory, tokens, i, m);
      } else {
        var m, i, minor, j :| Billed(directory, tokens, m, i, minor, j) && ChoicesMissed(tokens, j, 3);
        ChoicesRunOut(directory, tokens, m, i, minor, j);
      }
  }

  /** The entries ended at a field. */
  lemma EndsAtAmount(directory: seq<Merchant>, tokens: seq<string>, i: nat, m: Merchant, n: nat)
    requires m.active && TillAt(directory, tokens, i, m) && |tokens| == i + n + 1 && n <= 2 && AmountsMissed(tokens, i, n)
    ensures ReadTokens(directory, tokens) == Con(if n > 0 then BadAmount(m) else AskAmount(m))
  {
    TillReached(directory, tokens, i, m);
    AmountsScanned(directory, tokens, m, i, n);
    assert tokens[i + 1 + n..] == [];
  }

  lemma EndsAtChoice(directory: seq<Merchant>, tokens: seq<string>, m: Merchant, i: nat, minor: nat, j: nat, n: nat)
    requires Billed(directory, tokens, m, i, minor, j) && |tokens| == j + n + 1 && n <= 2 && ChoicesMissed(tokens, j, n)
    ensures ReadTokens(directory, tokens) == Con(AskChoice(m, minor))
  {
    AmountReached(directory, tokens, m, i, minor, j);
    ChoicesScanned(directory, tokens, m, minor, j, n);
    assert tokens[j + 1 + n..] == [];
  }

  lemma PromptSpeltIsRead(directory: seq<Merchant>, tokens: seq<string>, prompt: Prompt)
    requires Spelt(directory, tokens, Con(prompt))
    ensures ReadTokens(directory, tokens) == Con(prompt)
  {
    match prompt
    case AskTill =>
    case BadTill => TillsScanned(directory, tokens, |tokens|);
    case AskAmount(m) =>
      var i: nat :| TillAt(directory, tokens, i, m) && |tokens| == i + 1;
      EndsAtAmount(directory, tokens, i, m, 0);
    case BadAmount(m) =>
      var i: nat :|
        TillAt(directory, tokens, i, m) && 1 <= |tokens| - i - 1 <= 2 && AmountsMissed(tokens, i, |tokens| - i - 1);
      EndsAtAmount(directory, tokens, i, m, |tokens| - i - 1);
    case AskChoice(m, minor) =>
      var i, j :|
        Billed(directory, tokens, m, i, minor, j) && |tokens| - j - 1 <= 2 && ChoicesMissed(tokens, j, |tokens| - j - 1);
      EndsAtChoice(directory, tokens, m, i, minor, j, |tokens| - j - 1);
  }

  /** What a session reads as, told from its entries alone, every reading exactly when. */
  lemma ReadsAsSpelt(directory: seq<Merchant>, tokens: seq<string>, r: Reading)
    ensures ReadTokens(directory, tokens) == r <==> Spelt(directory, tokens, r)
  {
    ReadIsSpelt(directory, tokens);
    if Spelt(directory, tokens, r) {
      SpeltIsRead(directory, tokens, r);
    }
  }

  // ---- what more input can change ---------------------------------------------------------

  lemma {:induction false} OverStays(directory: seq<Merchant>, r: Reading, tokens: seq<string>)
    ensures OnTokens(directory, Over(r), tokens) == Over(r)
  {
    if tokens != [] {
      OverStays(directory, r, tokens[1..]);
    }
  }

  lemma {:induction false} OnTokensConcat(directory: seq<Merchant>, s: Session, a: seq<string>, b: seq<string>)
    ensures OnTokens(directory, s, a + b) == OnTokens(directory, OnTokens(directory, s, a), b)
    decreases |a|
  {
    if a == [] {
      assert a + b == b;
    } else {
      SplitFirst(a, b);
      OnTokensConcat(directory, OnToken(directory, s, a[0]), a[1..], b);
    }
  }

  /** Once ended, always ended, the same way: more tokens change neither the reply nor the payment. */
  lemma EndIsStable(directory: seq<Merchant>, a: seq<string>, b: seq<string>)
    requires a <= b && !ReadTokens(directory, a).Con?
    ensures ReadTokens(directory, b) == ReadTokens(directory, a)
  {
    assert b == a + b[|a|..];
    OnTokensConcat(directory, DIALLED, a, b[|a|..]);
    OverStays(directory, ReadTokens(directory, a), b[|a|..]);
  }

  lemma EndedTextStaysEnded(directory: seq<Merchant>, text: string, more: string)
    requires !ReadText(directory, text).Con?
    ensures ReadText(directory, text + "*" + more) == ReadText(directory, text)
  {
    TokensConcat(text, more);
    EndIsStable(directory, Tokens(text), Tokens(text + "*" + more));
  }

  /** The most entries a session can have taken to be where it is. */
  function Spent(s: Session): nat {
    match s
    case AtTill(misses) => misses
    case AtAmount(_, misses) => 3 + misses
    case AtChoice(_, _, misses) => 6 + misses
    case Over(_) => 9
  }

  predicate WithinTries(s: Session) {
    match s
    case AtTill(misses) => misses < MAX_ATTEMPTS
    case AtAmount(_, misses) => misses < MAX_ATTEMPTS
    case AtChoice(_, _, misses) => misses < MAX_ATTEMPTS
    case Over(r) => !r.Con?
  }

  lemma {:induction false} EveryTokenSpends(directory: seq<Merchant>, s: Session, tokens: seq<string>)
    requires WithinTries(s)
    ensures var end := OnTokens(directory, s, tokens);
      WithinTries(end) && (end.Over? || Spent(end) >= Spent(s) + |tokens|)
    decreases |tokens|
  {
    if tokens != [] {
      EveryTokenSpends(directory, OnToken(directory, s, tokens[0]), tokens[1..]);
    }
  }

  /** Nine entries always end a session. */
  lemma NineTokensEnd(directory: seq<Merchant>, tokens: seq<string>)
    requires |tokens| >= 9
    ensures !ReadTokens(directory, tokens).Con?
  {
    EveryTokenSpends(directory, DIALLED, tokens);
  }

  /** And no fewer do: with one active till and one entry that means nothing, a session of every length
      up to eight is still open. */
  lemma OpenSessionLengths(directory: seq<Merchant>, code: string, junk: string, n: nat)
    requires GetByShortCode(directory, code).Some? && GetByShortCode(directory, code).value.active
    requires GetByShortCode(directory, junk).None? && ParseAmount(junk).None? && junk !in {"1", "2"}
    ensures n <= 8 <==> exists tokens: seq<string> :: |tokens| == n && ReadTokens(directory, tokens).Con?
  {
    var longest := [junk, junk, code, junk, junk, "5", junk, junk];
    if n <= 8 {
      EightTokensStayOpen(directory, code, junk);
      var tokens := longest[..n];
      if !ReadTokens(directory, tokens).Con? {
        EndIsStable(directory, tokens, longest);
      }
      assert |tokens| == n && ReadTokens(directory, tokens).Con?;
    } else {
      forall tokens: seq<string> | |tokens| == n ensures !ReadTokens(directory, tokens).Con? {
        NineTokensEnd(directory, tokens);
      }
    }
  }

  lemma EightTokensStayOpen(directory: seq<Merchant>, code: string, junk: string)
    requires GetByShortCode(directory, code).Some? && GetByShortCode(directory, code).value.active
    requires GetByShortCode(directory, junk).None? && ParseAmount(junk).None? && junk !in {"1", "2"}
    ensures ReadTokens(directory, [junk, junk, code, junk, junk, "5", junk, junk]).Con?
  {
    FiveIsAnAmount();
    var m := GetByShortCode(directory, code).value;
    var choices := [junk, junk];
    var amounts := [junk, junk] + (["5"] + choices);
    TwoMisses(directory, AtChoice(m, 500, 0), AtChoice(m, 500, 1), AtChoice(m, 500, 2), junk, []);
    assert choices == [junk, junk] + [];
    OneToken(directory, AtAmount(m, 2), "5", choices);
    TwoMisses(directory, AtAmount(m, 0), AtAmount(m, 1), AtAmount(m, 2), junk, ["5"] + choices);
    OneToken(directory, AtTill(2), code, amounts);
    TwoMisses(directory, DIALLED, AtTill(1), AtTill(2), junk, [code] + amounts);
    assert [junk, junk, code, junk, junk, "5", junk, junk] == [junk, junk] + ([code] + amounts);
  }

  lemma OneToken(directory: seq<Merchant>, s: Session, token: string, rest: seq<string>)
    ensures OnTokens(directory, s, [token] + rest) == OnTokens(directory, OnToken(directory, s, token), rest)
  {
    assert ([token] + rest)[1..] == rest;
  }

  lemma TwoMisses(directory: seq<Merchant>, s: Session, s1: Session, s2: Session, junk: string, rest: seq<string>)
    requires OnToken(directory, s, junk) == s1 && OnToken(directory, s1, junk) == s2
    ensures OnTokens(directory, s, [junk, junk] + rest) == OnTokens(directory, s2, rest)
  {
    assert [junk, junk] + rest == [junk] + ([junk] + rest);
    OneToken(directory, s, junk, [junk] + rest);
    OneToken(directory, s1, junk, rest);
  }

  lemma FiveIsAnAmount()
    ensures ParseAmount("5") == Some(500)
  {
    DigitsAreNotSpaces("5");
    DigitRunStops("5", "");
    assert "5" + "" == "5" && "5"[..1] == "5";
    UserInputIsExact("5");
    assert Val("") == 0 && Val("5") == 10 * Val("5"[..0]) + 5;
    assert Pow10(0) == 1 && Pow10(1) == 10 && Pow10(2) == 100;
  }

  // ---- the payment a session makes ---------------------------------------------------------

  /** The key of the payment: session, customer, till and amount. */
  function PaymentKey(session: string, msisdn: string, code: string, minor: nat): string {
    "ussd:" + session + ":" + msisdn + ":" + code + ":" + ToDigits(minor)
  }

  /** Different sessions, customers, tills or amounts never share a key, as long as neither a number nor
      a till holds a colon; the session id may. */
  lemma KeysAreDistinct(s: string, m: string, c: string, a: nat, s': string, m': string, c': string, a': nat)
    requires ':' !in m && ':' !in c && ':' !in m' && ':' !in c'
    requires PaymentKey(s, m, c, a) == PaymentKey(s', m', c', a')
    ensures s == s' && m == m' && c == c' && a == a'
  {
    DigitsHoldNoColon(a);
    DigitsHoldNoColon(a');
    LastField("ussd:" + s + ":" + m + ":" + c, ToDigits(a), "ussd:" + s' + ":" + m' + ":" + c', ToDigits(a'));
    LastField("ussd:" + s + ":" + m, c, "ussd:" + s' + ":" + m', c');
    LastField("ussd:" + s, m, "ussd:" + s', m');
    assert s == ("ussd:" + s)[5..] && s' == ("ussd:" + s')[5..];
  }

  lemma DigitsHoldNoColon(a: nat)
    ensures ':' !in ToDigits(a)
  {
  }

  lemma LastField(front: string, last: string, front': string, last': string)
    requires ':' !in last && ':' !in last' && front + ":" + last == front' + ":" + last'
    ensures front == front' && last == last'
  {
    var whole := front + ":" + last;
    assert whole[|front|] == ':' && whole[|front'|] == ':';
    assert forall i | |front| < i < |whole| :: whole[i] == last[i - |front| - 1];
    assert forall i | |front'| < i < |whole| :: whole[i] == last'[i - |front'| - 1];
    assert front == whole[..|front|] && last == whole[|front| + 1..];
    assert front' == whole[..|front'|] && last' == whole[|front'| + 1..];
  }

  /** With a colon in a till the premise fails: two sessions meet on one key. */
  lemma ColonInTillCollides(s: string, m: string, m': string, c: string, a: nat)
    ensures PaymentKey(s, m, m' + ":" + c, a) == PaymentKey(s + ":" + m, m', c, a)
  {
    var tail := ":" + ToDigits(a);
    assert "ussd:" + s + ":" + m + ":" + (m' + ":" + c) == "ussd:" + (s + ":" + m) + ":" + m' + ":" + c;
  }

  /** One step of a session as it reaches the handler, with what the environment would add: the fresh id
      of a transaction and the predicted operators. */
  datatype Dial = Dial(
    session: string, msisdn: string, text: string,
    id: string, predictedPayer: Option<string>, predictedPayee: Option<string>)

  function OrderOf(d: Dial, m: Merchant, minor: nat, simulated: bool): PaymentOrder {
    OrderTerms(d.msisdn, m.settlementMsisdn, m.id, Money(minor, USD),
               ResolveProvider(d.predictedPayer, None), ResolveProvider(d.predictedPayee, m.settlementProvider),
               Some(PaymentKey(d.session, d.msisdn, m.shortCode, minor)), simulated, "success", false)
  }

  /** The payment a session asks for, told from who dialled and what the entries spell. */
  ghost predicate DialledAsRead(t: Tx, d: Dial, m: Merchant, minor: nat) {
    && PaysMerchant(t, d.msisdn, m, Money(minor, USD), t.customerProvider, t.merchantProvider)
    && FoundAs(t.customerProvider, d.predictedPayer, None)
    && FoundAs(t.merchantProvider, d.predictedPayee, m.settlementProvider)
  }

  datatype Reply =
    | Prompted(prompt: Prompt)
    | Closed(closing: Closing)
    | Routed(merchant: Merchant, minor: nat)
    | PayTill(merchant: Merchant, minor: nat, till: string)
    | PayNumber(merchant: Merchant, minor: nat, msisdn: string)

  /** What is said when nothing is paid. */
  function Spoken(r: Reading): Reply
    requires !r.Pay?
  {
    match r
    case Con(prompt) => Prompted(prompt)
    case End(closing) => Closed(closing)
  }

  /** The closing words of a payment that was started, or found. */
  function Thanks(m: Merchant, minor: nat, onNet: bool): Reply {
    if !onNet then Routed(m, minor)
    else match m.operatorTill
      case Some(till) => if till != "" then PayTill(m, minor, till) else PayNumber(m, minor, m.settlementMsisdn)
      case None => PayNumber(m, minor, m.settlementMsisdn)
  }

  /** Uninterrupted, the start of a payment the session confirmed never fails, and the transaction it names
      holds the key. Starts that overlap are in `ConcurrentSessions`. */
  lemma ConfirmedPaymentStarts(w: World, d: Dial, m: Merchant, minor: nat, simulated: bool, plan: RailPlan)
    requires Indexed(w) && d.id !in w.txs && minor > 0
    ensures var s := StartPayment(w, d.id, OrderOf(d, m, minor, simulated), plan);
      && s.result.Returned? && s.result.id in s.world.txs
      && s.world.txs[s.result.id].key == Some(PaymentKey(d.session, d.msisdn, m.shortCode, minor))
      && (s.result.id in w.txs ==> s.world == w)
      && (s.result.id !in w.txs ==>
            && s.result.id == d.id && AsOrdered(s.world.txs[d.id], OrderOf(d, m, minor, simulated))
            && DialledAsRead(s.world.txs[d.id], d, m, minor))
  {
    var o := OrderOf(d, m, minor, simulated);
    StartedAsOrdered(w, d.id, o, plan);
    StartedIsHealthy(d.id, o, plan);
    StartedPays(d.id, o, plan, m);
  }

  lemma PaysAPositiveAmount(directory: seq<Merchant>, s: Session, tokens: seq<string>)
    requires match s case AtChoice(_, minor, _) => minor > 0 case Over(Pay(_, minor)) => minor > 0 case _ => true
    ensures var r := Says(OnTokens(directory, s, tokens)); r.Pay? ==> r.minor > 0
    decreases |tokens|
  {
    if tokens != [] {
      PaysAPositiveAmount(directory, OnToken(directory, s, tokens[0]), tokens[1..]);
    }
  }

  datatype Handled = Handled(world: World, reply: Reply)

  /** One request, on the world. */
  function HandleOn(w: World, directory: seq<Merchant>, d: Dial, simulated: bool, plan: RailPlan): Handled
    requires Indexed(w) && d.id !in w.txs
  {
    var reading := ReadText(directory, d.text);
    if !reading.Pay? then Handled(w, Spoken(reading))
    else
      var m, minor := reading.merchant, reading.minor;
      PaysAPositiveAmount(directory, DIALLED, Tokens(d.text));
      ConfirmedPaymentStarts(w, d, m, minor, simulated, plan);
      var s := StartPayment(w, d.id, OrderOf(d, m, minor, simulated), plan);
      Handled(s.world, Thanks(m, minor, s.world.txs[s.result.id].provenance == MerchantAttested))
  }

  /** Where the merchant has registered an operator, what is predicted of its number changes nothing. */
  lemma PredictionIsMoot(
    w: World, directory: seq<Merchant>, d: Dial, predicted: Option<string>, simulated: bool, plan: RailPlan)
    requires Indexed(w) && d.id !in w.txs
    requires var r := ReadText(directory, d.text); r.Pay? ==> Named(r.merchant.settlementProvider)
    ensures HandleOn(w, directory, d.(predictedPayee := predicted), simulated, plan) == HandleOn(w, directory, d, simulated, plan)
  {
  }

  /** What the customer is told, by the payment that is stored under the session's key when the request is
      through: that it is on its way if it is routed; if it is on-net, to pay the merchant, on the till the
      operator gave it, or on its own number if there is none. A text that confirms nothing changes nothing. */
  lemma RepliesAsStored(w: World, directory: seq<Merchant>, d: Dial, simulated: bool, plan: RailPlan)
    requires Inv(w) && d.id !in w.txs
    ensures var h, r := HandleOn(w, directory, d, simulated, plan), ReadText(directory, d.text);
      match r
      case Con(prompt) => h.world == w && h.reply == Prompted(prompt)
      case End(closing) => h.world == w && h.reply == Closed(closing)
      case Pay(m, minor) =>
        && Inv(h.world) && KeyHeld(h.world, Some(PaymentKey(d.session, d.msisdn, m.shortCode, minor)))
        && var t := h.world.txs[Holder(h.world, PaymentKey(d.session, d.msisdn, m.shortCode, minor))];
           if t.provenance == RailVerified then h.reply == Routed(m, minor)
           else if Named(m.operatorTill) then h.reply == PayTill(m, minor, m.operatorTill.value)
           else h.reply == PayNumber(m, minor, m.settlementMsisdn)
  {
    var r := ReadText(directory, d.text);
    if r.Pay? {
      PaysAPositiveAmount(directory, DIALLED, Tokens(d.text));
      ConfirmedPaymentStarts(w, d, r.merchant, r.minor, simulated, plan);
      StartKeepsInv(w, d.id, OrderOf(d, r.merchant, r.minor, simulated), plan);
      var s := StartPayment(w, d.id, OrderOf(d, r.merchant, r.minor, simulated), plan);
      SoleHolder(s.world, s.result.id, PaymentKey(d.session, d.msisdn, r.merchant.shortCode, r.minor));
    }
  }

  lemma SoleHolder(w: World, id: string, key: string)
    requires Inv(w) && id in w.txs && w.txs[id].key == Some(key)
    ensures KeyHeld(w, Some(key)) && Holder(w, key) == id
  {
  }

  /** The handler over the objects: read the text, start or find the payment, look up what it became. */
  method Handle(
    store: TransactionStore, rail: Rail, ledger: InMemoryLedger, directory: seq<Merchant>, d: Dial, simulated: bool)
    returns (reply: Reply)
    requires store.Valid() && Indexed(WorldOf(store, rail, ledger)) && d.id !in store.rows
    requires simulated ==> rail.answers(d.id) == SimulatedAnswers(d.id)
    modifies store, store.rows.Values, rail`calls, ledger
    ensures store.Valid()
    ensures Handled(WorldOf(store, rail, ledger), reply)
         == HandleOn(old(WorldOf(store, rail, ledger)), directory, d, simulated, rail.answers)
  {
    ghost var w := WorldOf(store, rail, ledger);
    var reading := Interpret(directory, d.text);
    assert WorldOf(store, rail, ledger) == w;
    if !reading.Pay? {
      return Spoken(reading);
    }
    reply := HandlePay(store, rail, ledger, directory, d, reading, simulated);
  }

  method HandlePay(
    store: TransactionStore, rail: Rail, ledger: InMemoryLedger, ghost directory: seq<Merchant>,
    d: Dial, reading: Reading, simulated: bool)
    returns (reply: Reply)
    requires store.Valid() && Indexed(WorldOf(store, rail, ledger)) && d.id !in store.rows
    requires simulated ==> rail.answers(d.id) == SimulatedAnswers(d.id)
    requires reading == ReadText(directory, d.text) && reading.Pay?
    modifies store, store.rows.Values, rail`calls, ledger
    ensures store.Valid()
    ensures Handled(WorldOf(store, rail, ledger), reply)
         == HandleOn(old(WorldOf(store, rail, ledger)), directory, d, simulated, rail.answers)
  {
    ghost var w := WorldOf(store, rail, ledger);
    var m, minor := reading.merchant, reading.minor;
    PaysAPositiveAmount(directory, DIALLED, Tokens(d.text));
    var onNet := StartConfirmed(store, rail, ledger, d, m, minor, simulated);
    reply := Thanks(m, minor, onNet);
    PayIsHandled(w, directory, d, m, minor, simulated, rail.answers, WorldOf(store, rail, ledger), onNet);
  }

  lemma PayIsHandled(
    w: World, directory: seq<Merchant>, d: Dial, m: Merchant, minor: nat, simulated: bool, plan: RailPlan,
    now: World, onNet: bool)
    requires Indexed(w) && d.id !in w.txs && ReadText(directory, d.text) == Pay(m, minor)
    requires var s := StartPayment(w, d.id, OrderOf(d, m, minor, simulated), plan);
      && now == s.world && s.result.Returned? && s.result.id in s.world.txs
      && onNet == (s.world.txs[s.result.id].provenance == MerchantAttested)
    ensures HandleOn(w, directory, d, simulated, plan) == Handled(now, Thanks(m, minor, onNet))
  {
  }

  /** Start, or idempotently find, the payment; whether it went on-net. */
  method StartConfirmed(
    store: TransactionStore, rail: Rail, ledger: InMemoryLedger, d: Dial, m: Merchant, minor: nat, simulated: bool)
    returns (onNet: bool)
    requires store.Valid() && Indexed(WorldOf(store, rail, ledger)) && d.id !in store.rows && minor > 0
    requires simulated ==> rail.answers(d.id) == SimulatedAnswers(d.id)
    modifies store, store.rows.Values, rail`calls, ledger
    ensures store.Valid()
    ensures var s := StartPayment(old(WorldOf(store, rail, ledger)), d.id, OrderOf(d, m, minor, simulated), rail.answers);
      && WorldOf(store, rail, ledger) == s.world
      && s.result.Returned? && s.result.id in s.world.txs
      && onNet == (s.world.txs[s.result.id].provenance == MerchantAttested)
  {
    ConfirmedPaymentStarts(WorldOf(store, rail, ledger), d, m, minor, simulated, rail.answers);
    var s := StartMerchantPayment(store, rail, ledger, d.id, OrderOf(d, m, minor, simulated));
    assert s.id in WorldOf(store, rail, ledger).txs;
    onNet := store.rows[s.id].provenance == MerchantAttested;
  }

  // ---- a session of growing texts ------------------------------------------------------------

  /** The session's own requests, and everything else that happens meanwhile. */
  datatype Turn = Dialled(dial: Dial, plan: RailPlan) | Meanwhile(moment: Moment)

  /** Every text of the session is some of its entries, in order: growing texts, resends, repeats. */
  predicate OfSession(t: Turn, session: string, msisdn: string, entries: seq<string>) {
    t.Dialled? ==> t.dial.session == session && t.dial.msisdn == msisdn && Tokens(t.dial.text) <= entries
  }

  function Next(w: World, directory: seq<Merchant>, t: Turn, simulated: bool): (v: World)
    requires Inv(w)
    ensures Inv(v)
  {
    match t
    case Meanwhile(m) => StepKeepsInv(w, m); Step(w, m)
    case Dialled(d, plan) =>
      if d.id in w.txs then w
      else
        match ReadText(directory, d.text)
        case Pay(m, minor) =>
          StartKeepsInv(w, d.id, OrderOf(d, m, minor, simulated), plan);
          HandleOn(w, directory, d, simulated, plan).world
        case _ => w
  }

  /** What a dial that pays is told: which transaction, and whether it was made just now. */
  datatype Told = Told(id: string, created: bool)

  function ToldNow(w: World, directory: seq<Merchant>, t: Turn, simulated: bool): seq<Told>
    requires Inv(w)
  {
    if t.Meanwhile? || t.dial.id in w.txs then []
    else
      match ReadText(directory, t.dial.text)
      case Pay(m, minor) =>
        PaysAPositiveAmount(directory, DIALLED, Tokens(t.dial.text));
        ConfirmedPaymentStarts(w, t.dial, m, minor, simulated, t.plan);
        var id := StartPayment(w, t.dial.id, OrderOf(t.dial, m, minor, simulated), t.plan).result.id;
        [Told(id, id !in w.txs)]
      case _ => []
  }

  function ToldIn(w: World, directory: seq<Merchant>, ts: seq<Turn>, simulated: bool): seq<Told>
    requires Inv(w)
    decreases |ts|
  {
    if ts == [] then []
    else ToldNow(w, directory, ts[0], simulated) + ToldIn(Next(w, directory, ts[0], simulated), directory, ts[1..], simulated)
  }

  /** A turn leaves every key where it is. */
  lemma NextKeepsKeys(w: World, directory: seq<Merchant>, t: Turn, simulated: bool, id: string)
    requires Inv(w) && id in w.txs
    ensures var v := Next(w, directory, t, simulated); id in v.txs && v.txs[id].key == w.txs[id].key
  {
    match t
    case Meanwhile(m) => StepKeepsTerms(w, m, id);
    case Dialled(d, plan) =>
      if d.id !in w.txs && ReadText(directory, d.text).Pay? {
        var r := ReadText(directory, d.text);
        StartKeepsInv(w, d.id, OrderOf(d, r.merchant, r.minor, simulated), plan);
        assert PaymentOf(Next(w, directory, t, simulated), id) == PaymentOf(w, id);
      }
  }

  /** A dial of the session that pays asks for the one payment the entries spell. */
  lemma OneKeyASession(directory: seq<Merchant>, t: Turn, session: string, msisdn: string, entries: seq<string>)
    requires t.Dialled? && OfSession(t, session, msisdn, entries) && ReadText(directory, t.dial.text).Pay?
    ensures ReadText(directory, t.dial.text) == ReadTokens(directory, entries)
  {
    EndIsStable(directory, Tokens(t.dial.text), entries);
  }

  /** Once the payment exists, every further dial finds it. */
  lemma {:induction false} LaterDialsFindIt(
    w: World, directory: seq<Merchant>, ts: seq<Turn>, simulated: bool,
    session: string, msisdn: string, entries: seq<string>, id: string)
    requires Inv(w) && forall t | t in ts :: OfSession(t, session, msisdn, entries)
    requires ReadTokens(directory, entries).Pay? && id in w.txs
    requires var r := ReadTokens(directory, entries);
      w.txs[id].key == Some(PaymentKey(session, msisdn, r.merchant.shortCode, r.minor))
    ensures forall x | x in ToldIn(w, directory, ts, simulated) :: x == Told(id, false)
    decreases |ts|
  {
    if ts != [] {
      NextKeepsKeys(w, directory, ts[0], simulated, id);
      LaterDialsFindIt(Next(w, directory, ts[0], simulated), directory, ts[1..], simulated, session, msisdn, entries, id);
      ToldOfHeld(w, directory, ts[0], simulated, session, msisdn, entries, id);
    }
  }

  lemma ToldOfHeld(
    w: World, directory: seq<Merchant>, t: Turn, simulated: bool,
    session: string, msisdn: string, entries: seq<string>, id: string)
    requires Inv(w) && OfSession(t, session, msisdn, entries)
    requires ReadTokens(directory, entries).Pay? && id in w.txs
    requires var r := ReadTokens(directory, entries);
      w.txs[id].key == Some(PaymentKey(session, msisdn, r.merchant.shortCode, r.minor))
    ensures forall x | x in ToldNow(w, directory, t, simulated) :: x == Told(id, false)
  {
    if t.Dialled? && t.dial.id !in w.txs && ReadText(directory, t.dial.text).Pay? {
      OneKeyASession(directory, t, session, msisdn, entries);
      var key := w.txs[id].key.value;
      assert FirstWithKey(w.order, w.txs, key) == Some(id);
    }
  }

  /** A session pays once, one dial at a time. However its texts grow, repeat or arrive again, and whatever
      else happens between dials, every dial that pays is told the same transaction, and at most the first
      made it. Dials that overlap are in `ConcurrentSessions`. */
  lemma {:induction false} SessionPaysOnce(
    w: World, directory: seq<Merchant>, ts: seq<Turn>, simulated: bool, session: string, msisdn: string, entries: seq<string>)
    requires Inv(w) && forall t | t in ts :: OfSession(t, session, msisdn, entries)
    ensures AllTheFirst(ToldIn(w, directory, ts, simulated))
    decreases |ts|
  {
    if ts != [] {
      var now, next := ToldNow(w, directory, ts[0], simulated), Next(w, directory, ts[0], simulated);
      var later := ToldIn(next, directory, ts[1..], simulated);
      if now == [] {
        SessionPaysOnce(next, directory, ts[1..], simulated, session, msisdn, entries);
        assert now + later == later;
      } else {
        FirstPaymentHoldsKey(w, directory, ts[0], simulated, session, msisdn, entries);
        LaterDialsFindIt(next, directory, ts[1..], simulated, session, msisdn, entries, now[0].id);
        FirstThenSame(now, later);
      }
    }
  }

  /** All name the first one's transaction, and none after the first made it. */
  ghost predicate AllTheFirst(told: seq<Told>) {
    forall i | 0 < i < |told| :: told[i] == Told(told[0].id, false)
  }

  lemma FirstThenSame(now: seq<Told>, later: seq<Told>)
    requires |now| == 1 && forall x | x in later :: x == Told(now[0].id, false)
    ensures AllTheFirst(now + later)
  {
    assert forall i | 0 < i < |now + later| :: (now + later)[i] in later;
  }

  lemma FirstPaymentHoldsKey(
    w: World, directory: seq<Merchant>, t: Turn, simulated: bool, session: string, msisdn: string, entries: seq<string>)
    requires Inv(w) && OfSession(t, session, msisdn, entries) && ToldNow(w, directory, t, simulated) != []
    ensures var now, v := ToldNow(w, directory, t, simulated), Next(w, directory, t, simulated);
      var r := ReadTokens(directory, entries);
      && |now| == 1 && r.Pay? && now[0].id in v.txs
      && v.txs[now[0].id].key == Some(PaymentKey(session, msisdn, r.merchant.shortCode, r.minor))
  {
    OneKeyASession(directory, t, session, msisdn, entries);
    var r := ReadTokens(directory, entries);
    PaysAPositiveAmount(directory, DIALLED, entries);
    ConfirmedPaymentStarts(w, t.dial, r.merchant, r.minor, simulated, t.plan);
  }
}
