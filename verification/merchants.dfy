/** Registered merchants and the code a customer knows them by. */
module Merchants {
  import opened Common

  datatype Merchant = Merchant(
    id: string,
    name: string,
    shortCode: string,
    settlementMsisdn: string,
    settlementProvider: Option<string>,
    active: bool,
    operatorTill: Option<string>)

  /** The merchants in insertion order; the first one with a code answers to it. */
  function GetByShortCode(directory: seq<Merchant>, code: string): (m: Option<Merchant>)
    ensures m.Some? ==> m.value in directory && m.value.shortCode == code
    ensures m.None? ==> forall x | x in directory :: x.shortCode != code
  {
    if directory == [] then None
    else if directory[0].shortCode == code then Some(directory[0])
    else GetByShortCode(directory[1..], code)
  }

  /** Of several merchants under one code, the first registered answers to it. */
  lemma {:induction false} FirstTillAnswers(directory: seq<Merchant>, i: nat)
    requires i < |directory| && forall j | 0 <= j < i :: directory[j].shortCode != directory[i].shortCode
    ensures GetByShortCode(directory, directory[i].shortCode) == Some(directory[i])
  {
    if i > 0 {
      FirstTillAnswers(directory[1..], i - 1);
    }
  }

  function GetById(directory: seq<Merchant>, id: string): (m: Option<Merchant>)
    ensures m.Some? ==> m.value in directory && m.value.id == id
    ensures m.None? ==> forall x | x in directory :: x.id != id
  {
    if directory == [] then None
    else if directory[0].id == id then Some(directory[0])
    else GetById(directory[1..], id)
  }
}
