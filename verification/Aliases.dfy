/** The register of aliases and its billing counters. */
module Aliases {
  import opened Common

  type BankId = nat
  type Phone = string
  type Day = int

  datatype Alias = Alias(bank: BankId, account: string)

  /** `daily` and `total` are the two counters kept for every bank that looks aliases up. */
  datatype Registry = Registry(aliases: map<Phone, Alias>, daily: map<(BankId, Day), nat>, total: map<BankId, nat>)

  datatype AliasError = AlreadyRegistered | DoesNotExist | NotOwner

  function Count<K>(counters: map<K, nat>, k: K): nat { if k in counters then counters[k] else 0 }

  function Register(r: Registry, bank: BankId, phone: Phone, account: string): Result<Registry, AliasError> {
    if phone in r.aliases then Err(AlreadyRegistered) else Ok(r.(aliases := r.aliases[phone := Alias(bank, account)]))
  }

  function Unregister(r: Registry, bank: BankId, phone: Phone): Result<Registry, AliasError> {
    if phone !in r.aliases then Err(DoesNotExist)
    else if r.aliases[phone].bank != bank then Err(NotOwner)
    else Ok(r.(aliases := r.aliases - {phone}))
  }

  /** A hit costs one unit on both counters of the asking bank, a miss nothing. */
  function Lookup(r: Registry, bank: BankId, phone: Phone, today: Day): (Registry, Option<Alias>) {
    if phone !in r.aliases then (r, None)
    else
      (r.(daily := r.daily[(bank, today) := Count(r.daily, (bank, today)) + 1],
         total := r.total[bank := Count(r.total, bank) + 1]),
       Some(r.aliases[phone]))
  }

  class AliasRegistry {
    var aliases: map<Phone, Alias>
    var daily: map<(BankId, Day), nat>
    var total: map<BankId, nat>

    constructor ()
      ensures State() == Registry(map[], map[], map[])
    {
      aliases, daily, total := map[], map[], map[];
    }

    function State(): Registry
      reads this
    {
      Registry(aliases, daily, total)
    }

    method RegisterAlias(bank: BankId, phone: Phone, account: string) returns (error: Option<AliasError>)
      modifies this`aliases
      ensures match Register(old(State()), bank, phone, account)
              case Ok(r) => error == None && State() == r
              case Err(e) => error == Some(e) && State() == old(State())
      ensures error == if phone in old(aliases) then Some(AlreadyRegistered) else None
      ensures phone in aliases && forall p :: p in old(aliases) ==> p in aliases && aliases[p] == old(aliases)[p]
      ensures phone !in old(aliases) ==> aliases == old(aliases)[phone := Alias(bank, account)]
    {
      if phone in aliases {
        return Some(AlreadyRegistered);
      }
      aliases := aliases[phone := Alias(bank, account)];
      error := None;
    }

    method UnregisterAlias(bank: BankId, phone: Phone) returns (error: Option<AliasError>)
      modifies this`aliases
      ensures match Unregister(old(State()), bank, phone)
              case Ok(r) => error == None && State() == r
              case Err(e) => error == Some(e) && State() == old(State())
      ensures error == if phone !in old(aliases) then Some(DoesNotExist)
                       else if old(aliases)[phone].bank != bank then Some(NotOwner) else None
      ensures aliases == if error == None then old(aliases) - {phone} else old(aliases)
    {
      if phone !in aliases {
        return Some(DoesNotExist);
      }
      if aliases[phone].bank != bank {
        return Some(NotOwner);
      }
      aliases := aliases - {phone};
      error := None;
    }

    method LookupForBank(bank: BankId, phone: Phone, today: Day) returns (alias: Option<Alias>)
      modifies this`daily, this`total
      ensures (State(), alias) == Lookup(old(State()), bank, phone, today)
      ensures alias == if phone in aliases then Some(aliases[phone]) else None
      ensures forall b :: Count(total, b) == Count(old(total), b) + if alias.Some? && b == bank then 1 else 0
      ensures forall b, day ::
                Count(daily, (b, day)) ==
                Count(old(daily), (b, day)) + if alias.Some? && b == bank && day == today then 1 else 0
    {
      if phone !in aliases {
        return None;
      }
      daily := daily[(bank, today) := Count(daily, (bank, today)) + 1];
      total := total[bank := Count(total, bank) + 1];
      alias := Some(aliases[phone]);
    }
  }
}
