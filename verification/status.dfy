/** The provider's status vocabulary and the callback body, shared by push and poll. */
module Status {
  import opened Common
  import opened Transactions

  datatype Outcome = Success | Failure | Pending

  /** Upper-casing, for the characters that can end up inside one of the terminal words: the ASCII
      letters and the dotless i, whose upper case is a plain I. Every other character of a longer
      alphabet stays outside those words before and after. */
  function UpperChar(c: char): char {
    if 'a' <= c <= 'z' then (c as int - 'a' as int + 'A' as int) as char
    else if c == '\U{0131}' then 'I'
    else c
  }

  function Upper(s: string): (r: string)
    ensures |r| == |s| && forall i :: 0 <= i < |s| ==> r[i] == UpperChar(s[i])
  {
    seq(|s|, i requires 0 <= i < |s| => UpperChar(s[i]))
  }

  /** Anything not positively terminal is pending: money never resolves on an unknown word. */
  function Classify(raw: Option<string>): Outcome {
    var status := Upper(if raw.Some? then raw.value else "");
    if status == "COMPLETED" then Success
    else if status == "FAILED" || status == "REJECTED" then Failure
    else Pending
  }

  // ---- what a status says, told without upper-casing it ---------------------------------------------

  /** A character in place of a capital letter: itself, its small letter, or a dotless i for the I. */
  predicate Stands(c: char, capital: char) {
    || c == capital
    || ('A' <= capital <= 'Z' && c as int == capital as int + 32)
    || (c == '\U{0131}' && capital == 'I')
  }

  /** A text that spells a word of capitals in whatever case. */
  predicate Spells(text: string, word: string) {
    |text| == |word| && forall i :: 0 <= i < |text| ==> Stands(text[i], word[i])
  }

  predicate SaysDone(text: string) {
    Spells(text, "COMPLETED")
  }

  predicate SaysFailed(text: string) {
    Spells(text, "FAILED") || Spells(text, "REJECTED")
  }

  lemma StandsMeans(c: char, capital: char)
    requires 'A' <= capital <= 'Z'
    ensures UpperChar(c) == capital <==> Stands(c, capital)
  {
  }

  lemma SpellsMeans(text: string, word: string)
    requires forall i :: 0 <= i < |word| ==> 'A' <= word[i] <= 'Z'
    ensures Upper(text) == word <==> Spells(text, word)
  {
    forall i | 0 <= i < |text| && i < |word| ensures UpperChar(text[i]) == word[i] <==> Stands(text[i], word[i]) {
      StandsMeans(text[i], word[i]);
    }
    if Spells(text, word) {
      assert forall i :: 0 <= i < |text| ==> Upper(text)[i] == word[i];
    }
  }

  /** The three final words and what each says; any other text, and none at all, says nothing yet. */
  lemma StatusReads(raw: Option<string>)
    ensures Classify(raw) == Success <==> raw.Some? && SaysDone(raw.value)
    ensures Classify(raw) == Failure <==> raw.Some? && SaysFailed(raw.value)
  {
    var text := if raw.Some? then raw.value else "";
    SpellsMeans(text, "COMPLETED");
    SpellsMeans(text, "FAILED");
    SpellsMeans(text, "REJECTED");
  }

  /** The fields of a callback object that matter. A field that is absent or not text is `None`. */
  datatype Body = Body(depositId: Option<string>, payoutId: Option<string>, refundId: Option<string>, status: string)

  datatype CallbackEvent = CallbackEvent(kind: Leg, opId: string, success: bool)

  predicate Present(field: Option<string>) {
    field.Some? && field.value != ""
  }

  /** Which field names which leg's operation. */
  function Field(b: Body, leg: Leg): Option<string> {
    match leg
    case Deposit => b.depositId
    case Payout => b.payoutId
    case Refund => b.refundId
  }

  /** The order in which the fields are looked at. */
  function Precedence(leg: Leg): nat {
    match leg
    case Deposit => 0
    case Payout => 1
    case Refund => 2
  }

  /** An event exactly when some operation is named and the status spells one of the final words, a success
      exactly when that word is COMPLETED; it is about the first leg, in order, whose field names one. */
  function ParseCallback(b: Body): (r: Option<CallbackEvent>)
    ensures r.Some? <==> (exists leg :: Present(Field(b, leg))) && (SaysDone(b.status) || SaysFailed(b.status))
    ensures r.Some? ==>
      && Present(Field(b, r.value.kind)) && Field(b, r.value.kind) == Some(r.value.opId)
      && (forall leg | Precedence(leg) < Precedence(r.value.kind) :: !Present(Field(b, leg)))
      && (r.value.success <==> SaysDone(b.status)) && (!r.value.success <==> SaysFailed(b.status))
  {
    StatusReads(Some(b.status));
    var found: Option<(Leg, string)> :=
      if Present(b.depositId) then Some((Deposit, b.depositId.value))
      else if Present(b.payoutId) then Some((Payout, b.payoutId.value))
      else if Present(b.refundId) then Some((Refund, b.refundId.value))
      else None;
    var outcome := Classify(Some(b.status));
    assert found.Some? ==> Present(Field(b, found.value.0));
    if found.None? || outcome == Pending then None
    else Some(CallbackEvent(found.value.0, found.value.1, outcome == Success))
  }
}
