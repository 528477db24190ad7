/** Properties of the slot validators and the price: the boundaries of each
    window, the loose "HH:MM" check, and the case-sensitive price key. */
module ValidationFacts {
  import opened Wrappers
  import opened Text
  import opened Firewood

  /** A five-character time with one colon is valid exactly when both sides
      read as integers, the hour in [9, 17] and the minute in [0, 59]. */
  lemma TimeValidIff(hh: string, mm: string)
    requires ':' !in hh && ':' !in mm && |hh| + |mm| == 4
    ensures IsValidDeliveryTime(Some(hh + ":" + mm)) <==>
      && ParseInt(hh).Some? && 9 <= ParseInt(hh).value <= 17
      && ParseInt(mm).Some? && 0 <= ParseInt(mm).value <= 59
  {
    SplitOnce(hh, mm, ':');
  }

  /** A valid time is five characters holding exactly one colon. */
  lemma ValidTimeShape(time: string)
    requires IsValidDeliveryTime(Some(time))
    ensures |time| == 5 && Count(time, ':') == 1
  {
  }

  /** The window opens at 09:00 ... */
  lemma TimeNineAccepted()
    ensures IsValidDeliveryTime(Some("09:00"))
  {
    ParseTwoDigits('0', '9');
    ParseTwoDigits('0', '0');
    TimeValidIff("09", "00");
  }

  lemma TimeBeforeNineRejected()
    ensures !IsValidDeliveryTime(Some("08:59"))
  {
    ParseTwoDigits('0', '8');
    ParseTwoDigits('5', '9');
    TimeValidIff("08", "59");
  }

  /** ... and the whole 17:00-17:59 hour is accepted; 18:00 is not. */
  lemma TimeSeventeenAccepted()
    ensures IsValidDeliveryTime(Some("17:59"))
  {
    ParseTwoDigits('1', '7');
    ParseTwoDigits('5', '9');
    assert ParseInt("17") == Some(17) && ParseInt("59") == Some(59);
    assert "17" + ":" + "59" == "17:59";
    TimeValidIff("17", "59");
  }

  lemma TimeEighteenRejected()
    ensures !IsValidDeliveryTime(Some("18:00"))
  {
    ParseTwoDigits('1', '8');
    ParseTwoDigits('0', '0');
    TimeValidIff("18", "00");
  }

  lemma TimeWithoutColon()
    ensures !IsValidDeliveryTime(Some("12345"))
  {
  }

  /** Only the length and the single colon are checked, so "9:000" reads as 09:00. */
  lemma TimeLooseFormat()
    ensures IsValidDeliveryTime(Some("9:000"))
  {
    var nine, zeros := "9", "000";
    assert AllDigits(nine) && AllDigits(zeros);
    assert nine[..0] == [];
    assert DigitsValue(nine) == 9;
    var zero, twoZeros := zeros[..1], zeros[..2];
    assert zero[..0] == [] && twoZeros[..1] == zero;
    assert DigitsValue(zero) == 0;
    assert DigitsValue(twoZeros) == 0;
    assert DigitsValue(zeros) == 0;
    assert ParseInt(nine) == Some(9) && ParseInt(zeros) == Some(0);
    assert nine + ":" + zeros == "9:000";
    TimeValidIff(nine, zeros);
  }

  /** The date window: a parsed day `today + k` is accepted exactly for k in [1, 30]. */
  lemma DateWindow(date: string, env: Env, k: int)
    requires date != "" && env.parseDate(date) == Some(env.today + k)
    ensures IsValidDeliveryDate(Some(date), env.today, env.parseDate) <==> 1 <= k <= 30
  {
  }

  /** An empty, missing or unparsable date is rejected. */
  lemma DateRejectsUnparsed(date: Option<string>, env: Env)
    requires !Present(date) || env.parseDate(date.value).None?
    ensures !IsValidDeliveryDate(date, env.today, env.parseDate)
  {
  }

  /** The rendering of n is an accepted cord count exactly for n in [1, 3]. */
  lemma CordsValidIff(n: int)
    ensures IsValidNumberCords(Some(Str(n))) <==> 1 <= n <= 3
  {
    StrRoundTrip(n);
  }

  /** The street validator fails closed: without both values, or without a
      positive match from the lookup, it rejects. */
  lemma StreetFailsClosed(street: Option<string>, zip: Option<string>, lookup: (string, string) -> LookupOutcome)
    requires !Present(street) || !Present(zip) || lookup(street.value, zip.value) != Match
    ensures !IsValidDeliveryStreet(street, zip, lookup)
  {
  }

  /** The street is accepted when both values are given and the lookup finds a match. */
  lemma StreetAcceptsMatch(street: Option<string>, zip: Option<string>, lookup: (string, string) -> LookupOutcome)
    requires Present(street) && Present(zip) && lookup(street.value, zip.value) == Match
    ensures IsValidDeliveryStreet(street, zip, lookup)
  {
  }

  /** Only the one serviceable zip code is accepted, compared as text. */
  lemma ZipValidIff(zip: Option<string>)
    ensures IsValidDeliveryZip(zip) <==> zip == Some("80863")
  {
  }

  /** A type is accepted exactly when it lowers to one of the two catalogue entries. */
  lemma FirewoodTypeValidIff(firewoodType: string)
    ensures IsValidFirewoodType(Some(firewoodType)) <==>
      Lower(firewoodType) == "split" || Lower(firewoodType) == "logs"
  {
  }

  lemma LowerCatalogue()
    ensures Lower("split") == "split" && Lower("logs") == "logs"
  {
  }

  /** A validated type finds its price only when it is already lower case:
      the check folds case, the catalogue lookup does not. */
  lemma ValidTypePriceKey(firewoodType: string)
    requires IsValidFirewoodType(Some(firewoodType))
    ensures firewoodType in PricePerCord <==> Lower(firewoodType) == firewoodType
  {
  }

  /** "Split" passes validation and then raises KeyError at the price lookup. */
  lemma CapitalisedTypeQuirk()
    ensures IsValidFirewoodType(Some("Split"))
    ensures Price("Split", "2") == Failure(KeyError("Split"))
  {
    assert Lower("Split") == "split";
  }

  lemma PriceExamples()
    ensures Price("split", "2") == Success("$400")
    ensures Price("logs", "3") == Success("$450")
  {
    assert ParseInt("2") == Some(2);
    assert ParseInt("3") == Some(3);
    assert PricePerCord["split"] * 2 == 400 && PricePerCord["logs"] * 3 == 450;
    assert Decimal(4) == "4";
    assert Decimal(40) == "40";
    assert Str(400) == "400";
    assert Decimal(45) == "45";
    assert Str(450) == "450";
    assert Price("split", "2") == Success("$" + Str(400));
    assert Price("logs", "3") == Success("$" + Str(450));
    assert "$" + "400" == "$400" && "$" + "450" == "$450";
  }

  /** Once every slot is valid, the cord count is an integer in [1, 3], so the
      price raises only for a type not already in lower case, and otherwise
      reads back as an amount between $150 and $600. */
  lemma ValidOrderPrice(o: OrderSlots, env: Env)
    requires Validate(o, env).allValid
    ensures o.firewoodType.Some? && o.numberCords.Some?
    ensures var p := Price(o.firewoodType.value, o.numberCords.value);
      && (p.Success? <==> Lower(o.firewoodType.value) == o.firewoodType.value)
      && (p.Success? ==> 150 <= ParseInt(p.value[1..]).value <= 600)
  {
  }
}
