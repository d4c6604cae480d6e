/** What the deterministic chat keeps over whole conversations. */
module SlotRuns {
  import opened Wrappers
  import opened Text
  import opened SlotMachine

  predicate IsSlotKey(k: Key) {
    k.BudgetMax? || k.BudgetUnknown? || k.Brand? || k.Model? || k.Fuel? || k.Transmission? || k.YearMin?
  }

  /** A slot state is the first missing slot, and a model is never known without its brand. */
  ghost predicate Kept(state: State, data: Data) {
    (IsSlot(state) ==> state == NextMissingBuy(data)) && (Has(data, Model) ==> Has(data, Brand))
  }

  /** No entry of the patch blanks a filled slot. */
  ghost predicate NoBlank(data: Data, patch: Data) {
    forall k | k in patch && IsSlotKey(k) && Has(data, k) :: patch[k] != ""
  }

  ghost predicate Good(data: Data, o: Outcome) {
    NoBlank(data, o.patch) && Kept(o.next, data + o.patch) && !o.next.Unknown?
  }

  ghost predicate ModelNeedsBrand(data: Data) {
    Has(data, Model) ==> Has(data, Brand)
  }

  lemma MergeIsApply(data: Data, patch: Data)
    requires NoBlank(data, patch)
    ensures forall k | IsSlotKey(k) :: Has(Merge(data, patch), k) <==> Has(data + patch, k)
    ensures NextMissingBuy(Merge(data, patch)) == NextMissingBuy(data + patch)
  {
    forall k | IsSlotKey(k)
      ensures Has(Merge(data, patch), k) <==> Has(data + patch, k)
    {
    }
  }

  lemma ToMissingIsGood(data: Data, patch: Data, lead: string)
    requires NoBlank(data, patch) && ModelNeedsBrand(data + patch)
    ensures Good(data, ToMissing(data, patch, lead))
  {
    MergeIsApply(data, patch);
  }

  lemma HintsAreModest(budget: Option<(int, int)>, fuel: string, trans: string, year: Option<int>, data: Data)
    ensures
      var h := Hints(budget, fuel, trans, year);
      && NoBlank(data, h) && Brand !in h && Model !in h && BudgetUnknown !in h
      && (BudgetMax in h <==> budget.Some?) && (forall k | k in h :: h[k] != "")
  {
  }

  lemma ExtractAllIsModest(p: Parsers, body: string, data: Data)
    ensures
      var e := ExtractAll(p, body);
      && NoBlank(data, e) && Brand !in e && Model !in e && BudgetUnknown !in e
      && (BudgetMax in e <==> AcceptBudget(p, body).Some?) && (forall k | k in e :: e[k] != "")
  {
    HintsAreModest(AcceptBudget(p, body), FindFuel(body), FindTrans(body), p.year(body), data);
  }

  // ---- one lemma a state ----

  lemma NamePatchIsGood(data: Data, hints: Data, brand: string, model: string, lead: string)
    requires ModelNeedsBrand(data) && NoBlank(data, hints) && Brand !in hints && Model !in hints
    ensures Good(data, ToMissing(data, NamePatch(hints, brand, model), lead))
  {
    ToMissingIsGood(data, NamePatch(hints, brand, model), lead);
  }

  lemma StartBuyingIsGood(p: Parsers, body: string, data: Data)
    requires ModelNeedsBrand(data)
    ensures Good(data, StartBuying(p, body, data))
  {
    ExtractAllIsModest(p, body, data);
    NamePatchIsGood(data, ExtractAll(p, body), p.brandModel(body).0, p.brandModel(body).1, "Great, you want to *BUY*! ");
  }

  lemma DirectPatchIsModest(data: Data, hints: Data, brand: string, model: string)
    requires brand != "" && NoBlank(data, hints)
    ensures
      var r := DirectPatch(hints, brand, model);
      NoBlank(data, r) && Has(r, Brand)
  {
  }

  lemma DirectSearchIsGood(p: Parsers, body: string, data: Data, brand: string, model: string)
    requires brand != ""
    ensures Good(data, DirectSearch(p, body, data, brand, model))
  {
    ExtractAllIsModest(p, body, data);
    DirectPatchIsModest(data, ExtractAll(p, body), brand, model);
  }

  lemma BankNameIsModest(p: Parsers, body: string, data: Data, patch: Data)
    requires Sound(p) && ModelNeedsBrand(data) && Brand !in patch && Model !in patch && NoBlank(data, patch)
    ensures
      var r := BankName(p, body, data, patch);
      && NoBlank(data, r) && ModelNeedsBrand(data + r)
      && (Has(r, BudgetMax) <==> Has(patch, BudgetMax)) && (Has(r, BudgetUnknown) <==> Has(patch, BudgetUnknown))
  {
  }

  lemma SkipBudgetIsGood(data: Data)
    requires ModelNeedsBrand(data)
    ensures Good(data, SkipBudget(data))
  {
    MergeIsApply(data, map[BudgetUnknown := "1"]);
  }

  lemma TakeBudgetIsGood(data: Data, patch: Data, accepted: bool)
    requires !HasBudgetSlot(data) && NoBlank(data, patch) && ModelNeedsBrand(data + patch)
    requires !accepted ==> !Has(patch, BudgetMax) && !Has(patch, BudgetUnknown)
    ensures Good(data, TakeBudget(data, patch, accepted))
  {
    ToMissingIsGood(data, patch, "Noted budget. ");
  }

  lemma BankedBudgetIsGood(p: Parsers, body: string, data: Data, e: Data, accepted: bool)
    requires Sound(p) && Kept(BUY_BUDGET, data)
    requires e == ExtractAll(p, body) && accepted == AcceptBudget(p, body).Some?
    ensures Good(data, TakeBudget(data, BankName(p, body, data, e), accepted))
  {
    ExtractAllIsModest(p, body, data);
    BankNameIsModest(p, body, data, e);
    TakeBudgetIsGood(data, BankName(p, body, data, e), accepted);
  }

  lemma BudgetStepIsGood(p: Parsers, body: string, data: Data)
    requires Sound(p) && Kept(BUY_BUDGET, data)
    ensures Good(data, BudgetStep(p, body, data))
  {
    if UnknownBudget(body) || p.choice(body) == 0 {
      SkipBudgetIsGood(data);
    } else {
      BankedBudgetIsGood(p, body, data, ExtractAll(p, body), AcceptBudget(p, body).Some?);
    }
  }

  lemma BrandHintsAreModest(p: Parsers, body: string, data: Data)
    ensures
      var h := BrandHints(p, body);
      Brand !in h && Model !in h && NoBlank(data, h)
  {
    ExtractAllIsModest(p, body, data);
  }

  lemma HintsOnlyIsGood(data: Data, hints: Data)
    requires Kept(BUY_BRAND, data) && NoBlank(data, hints) && Brand !in hints && Model !in hints
    ensures Good(data, HintsOnly(data, hints))
  {
    MergeIsApply(data, hints);
  }

  lemma TakeBrandIsGood(data: Data, patch: Data)
    requires Kept(BUY_BRAND, data) && NoBlank(data, patch) && ModelNeedsBrand(data + patch)
    ensures Good(data, TakeBrand(data, patch))
  {
    MergeIsApply(data, patch);
    ToMissingIsGood(data, patch, "");
  }

  lemma BrandNameIsModest(p: Parsers, body: string, data: Data, patch: Data)
    requires Sound(p) && !Has(data, Brand) && !Has(data, Model) && Brand !in patch && Model !in patch && NoBlank(data, patch)
    ensures
      var r := BrandName(p, body, patch);
      NoBlank(data, r) && ModelNeedsBrand(data + r)
  {
  }

  lemma BrandStepIsGood(p: Parsers, body: string, data: Data)
    requires Sound(p) && Kept(BUY_BRAND, data)
    ensures Good(data, BrandStep(p, body, data))
  {
    var b := Norm(body);
    if p.choice(body) == 0 || b == "" || b == "any" || b == "no" {
      ToMissingIsGood(data, map[Brand := "ANY"], "");
    } else {
      BrandHintsAreModest(p, body, data);
      HintsOnlyIsGood(data, BrandHints(p, body));
      BrandNameIsModest(p, body, data, BrandHints(p, body));
      TakeBrandIsGood(data, BrandName(p, body, BrandHints(p, body)));
    }
  }

  lemma FillIsGood(state: State, data: Data, patch: Data, k: Key, answer: Option<string>, lead: string)
    requires Kept(state, data) && NoBlank(data, patch) && Brand !in patch && Model !in patch && k !in patch
    requires (state == BUY_MODEL && k == Model) || (state == BUY_FUEL && k == Fuel) || (state == BUY_TRANS && k == Transmission)
    requires answer.Some? ==> answer.value != ""
    ensures Good(data, FillStep(state, data, patch, k, answer, lead))
  {
    if answer.Some? {
      ToMissingIsGood(data, patch[k := answer.value], lead);
    }
  }

  lemma ModelStepIsGood(p: Parsers, body: string, data: Data)
    requires Kept(BUY_MODEL, data)
    ensures Good(data, ModelStep(p, body, data))
  {
    ExtractAllIsModest(p, body, data);
    FillIsGood(BUY_MODEL, data, ExtractAll(p, body), Model, ModelAnswer(p, body, Has(data, YearMin)), "Noted. ");
  }

  lemma FuelStepIsGood(p: Parsers, body: string, data: Data)
    requires Kept(BUY_FUEL, data)
    ensures Good(data, FuelStep(p, body, data))
  {
    ExtractAllIsModest(p, body, data);
    var answer := ChoiceAnswer(body, FindFuel(body), ChoiceFuel(p.choice(body)), FindTrans(body) != "" || HasBudget(p, body));
    FillIsGood(BUY_FUEL, data, ExtractAll(p, body) - {Fuel}, Fuel, answer, "");
  }

  lemma TransStepIsGood(p: Parsers, body: string, data: Data)
    requires Kept(BUY_TRANS, data)
    ensures Good(data, TransStep(p, body, data))
  {
    ExtractAllIsModest(p, body, data);
    var answer := ChoiceAnswer(body, FindTrans(body), ChoiceTrans(p.choice(body)), FindFuel(body) != "" || HasBudget(p, body));
    FillIsGood(BUY_TRANS, data, ExtractAll(p, body) - {Transmission}, Transmission, answer, "");
  }

  /** Outcomes that lead to no slot state and touch neither brand nor model. */
  lemma OutsideSlotsIsGood(data: Data, o: Outcome)
    requires ModelNeedsBrand(data) && !IsSlot(o.next) && !o.next.Unknown?
    requires forall k | k in o.patch && IsSlotKey(k) :: k == YearMin && o.patch[k] != ""
    ensures Good(data, o)
  {
  }

  /** Outcomes without slot entries that leave the state, or leave the slots. */
  lemma SlotsUntouchedIsGood(state: State, data: Data, o: Outcome)
    requires Kept(state, data) && !o.next.Unknown? && (o.next == state || !IsSlot(o.next))
    requires forall k | k in o.patch :: !IsSlotKey(k)
    ensures Good(data, o)
  {
  }

  lemma OpenIsGood(p: Parsers, opening: Opening, body: string, data: Data)
    requires Sound(p) && ModelNeedsBrand(data) && (opening.Names? ==> opening.brand != "")
    ensures Good(data, Open(p, opening, body, data))
  {
    match opening
    case Buys => StartBuyingIsGood(p, body, data);
    case Names(brand, model) => DirectSearchIsGood(p, body, data, brand, model);
    case _ => SlotsUntouchedIsGood(ASK_INTENT, data, Open(p, opening, body, data));
  }

  lemma AskIntentIsGood(p: Parsers, body: string, data: Data)
    requires Sound(p) && ModelNeedsBrand(data)
    ensures Good(data, AskIntent(p, body, data))
  {
    OpenIsGood(p, OpeningOf(p, body), body, data);
  }

  lemma ObeyPatches(command: Command, state: State)
    ensures
      var o := Obey(command, state);
      && (forall k | k in o.patch :: !IsSlotKey(k)) && (o.next == state || !IsSlot(o.next))
      && (o.next.Unknown? ==> state.Unknown?)
  {
  }

  lemma ObeyIsGood(command: Command, state: State, data: Data)
    requires Kept(state, data) && !state.Unknown?
    ensures Good(data, Obey(command, state))
  {
    ObeyPatches(command, state);
    SlotsUntouchedIsGood(state, data, Obey(command, state));
  }

  lemma SellPatchIsModest(p: Parsers, body: string)
    ensures forall k | k in SellPatch(p, body) :: !IsSlotKey(k)
  {
  }

  lemma SellDetailsIsGood(data: Data, patch: Data)
    requires ModelNeedsBrand(data) && forall k | k in patch :: !IsSlotKey(k)
    ensures Good(data, SellDetails(data, patch))
  {
    OutsideSlotsIsGood(data, SellDetails(data, patch));
  }

  lemma SpecsPatchIsModest(body: string)
    ensures forall k | k in SpecsPatch(body) :: !IsSlotKey(k)
  {
  }

  lemma LocatedIsGood(data: Data, patch: Data, parts: seq<string>)
    requires ModelNeedsBrand(data) && forall k | k in patch :: !IsSlotKey(k)
    ensures Good(data, Selling(SELL_PHOTOS, SendPhotos, WithLocation(patch, parts)))
  {
    OutsideSlotsIsGood(data, Selling(SELL_PHOTOS, SendPhotos, WithLocation(patch, parts)));
  }

  lemma SellSpecsIsGood(body: string, data: Data)
    requires ModelNeedsBrand(data)
    ensures Good(data, SellSpecsStep(body))
  {
    SpecsPatchIsModest(body);
    LocatedIsGood(data, SpecsPatch(body), Split(body, ','));
  }

  lemma SellPhotosIsGood(p: Parsers, body: string, data: Data)
    requires ModelNeedsBrand(data)
    ensures Good(data, SellPhotosStep(p, body, data))
  {
    OutsideSlotsIsGood(data, SellPhotosStep(p, body, data));
  }

  lemma AfterTestDriveIsGood(p: Parsers, body: string, data: Data)
    requires ModelNeedsBrand(data)
    ensures Good(data, AfterTestDrive(p, body))
  {
    OutsideSlotsIsGood(data, AfterTestDrive(p, body));
  }

  lemma YearStepIsGood(p: Parsers, body: string, data: Data)
    requires ModelNeedsBrand(data)
    ensures Good(data, YearStep(p, body))
  {
    OutsideSlotsIsGood(data, YearStep(p, body));
  }

  lemma NameStatesAreGood(p: Parsers, state: State, body: string, data: Data)
    requires Sound(p) && Kept(state, data) && (state.BUY_BUDGET? || state.BUY_BRAND?)
    ensures Good(data, Dispatch(p, state, body, data))
  {
    if state.BUY_BUDGET? {
      BudgetStepIsGood(p, body, data);
    } else {
      BrandStepIsGood(p, body, data);
    }
  }

  lemma ChoiceStatesAreGood(p: Parsers, state: State, body: string, data: Data)
    requires Kept(state, data) && IsSlot(state) && !state.BUY_BUDGET? && !state.BUY_BRAND?
    ensures Good(data, Dispatch(p, state, body, data))
  {
    if state.BUY_MODEL? {
      ModelStepIsGood(p, body, data);
    } else if state.BUY_FUEL? {
      FuelStepIsGood(p, body, data);
    } else if state.BUY_TRANS? {
      TransStepIsGood(p, body, data);
    } else {
      YearStepIsGood(p, body, data);
    }
  }

  lemma SellCarIsGood(data: Data, car: (string, string))
    requires ModelNeedsBrand(data)
    ensures Good(data, SellCarStep(car))
  {
    OutsideSlotsIsGood(data, SellCarStep(car));
  }

  lemma SellStatesAreGood(p: Parsers, state: State, body: string, data: Data)
    requires ModelNeedsBrand(data) && IsSell(state)
    ensures Good(data, Dispatch(p, state, body, data))
  {
    if state.SELL_DETAILS? {
      SellPatchIsModest(p, body);
      SellDetailsIsGood(data, SellPatch(p, body));
    } else if state.SELL_SPECS? {
      SellSpecsIsGood(body, data);
    } else if state.SELL_PHOTOS? {
      SellPhotosIsGood(p, body, data);
    } else if state.SELL_CAR? {
      SellCarIsGood(data, SplitBrandModel(body));
    } else {
      OutsideSlotsIsGood(data, Dispatch(p, state, body, data));
    }
  }

  lemma OtherStatesAreGood(p: Parsers, state: State, body: string, data: Data)
    requires Sound(p) && Kept(state, data) && !IsSlot(state) && !IsSell(state) && !state.Unknown? && !state.NEW? && !state.DONE?
    ensures Good(data, Dispatch(p, state, body, data))
  {
    if state.ASK_INTENT? {
      AskIntentIsGood(p, body, data);
    } else if state.POST_TESTDRIVE_FOLLOWUP? {
      AfterTestDriveIsGood(p, body, data);
    } else {
      OutsideSlotsIsGood(data, Dispatch(p, state, body, data));
    }
  }

  lemma DispatchIsGood(p: Parsers, state: State, body: string, data: Data)
    requires Sound(p) && Kept(state, data) && !state.Unknown? && !state.NEW? && !state.DONE?
    ensures Good(data, Dispatch(p, state, body, data))
  {
    if state.BUY_BUDGET? || state.BUY_BRAND? {
      NameStatesAreGood(p, state, body, data);
    } else if IsSlot(state) {
      ChoiceStatesAreGood(p, state, body, data);
    } else if IsSell(state) {
      SellStatesAreGood(p, state, body, data);
    } else {
      OtherStatesAreGood(p, state, body, data);
    }
  }

  lemma FromMenuIsGood(p: Parsers, body: string, data: Data)
    requires Sound(p) && ModelNeedsBrand(data)
    ensures Good(data, FromMenu(p, body, data))
  {
    var command := CommandOf(ASK_INTENT, Norm(body));
    ObeyIsGood(command, ASK_INTENT, data);
    ObeyPatches(command, ASK_INTENT);
    AskIntentIsGood(p, body, data);
  }

  lemma ActIsGood(p: Parsers, command: Command, state: State, body: string, data: Data, hasIntent: bool, greets: bool)
    requires Sound(p) && Kept(state, data)
    ensures
      var t := Act(p, command, state, body, data, hasIntent, greets);
      Good(if t.wiped then map[] else data, t.outcome) && (t.wiped ==> state == DONE)
  {
    if state.Unknown? {
      SlotsUntouchedIsGood(state, data, Act(p, command, state, body, data, hasIntent, greets).outcome);
    } else if command != Nothing {
      ObeyPatches(command, state);
      ObeyIsGood(command, state, data);
    } else if state.NEW? {
      FromMenuIsGood(p, body, data);
    } else if state.DONE? {
      FromMenuIsGood(p, body, map[]);
    } else {
      DispatchIsGood(p, state, body, data);
    }
  }

  /** Next always answers with a valid state, keeps filled slots unless it wipes everything, and leaves every slot
      state first missing. */
  lemma NextIsGood(p: Parsers, state: State, body: string, data: Data)
    requires Sound(p) && Kept(state, data)
    ensures
      var t := Next(p, state, body, data);
      Good(if t.wiped then map[] else data, t.outcome) && (t.wiped ==> state == DONE)
  {
    ActIsGood(p, CommandOf(state, Norm(body)), state, body, data, WantsBuy(Norm(body)) || WantsSell(Norm(body)), IsGreeting(body));
  }

  // ---- whole conversations ----

  function Feed(p: Parsers, state: State, data: Data, bodies: seq<string>): (State, Data)
    decreases |bodies|
  {
    if bodies == [] then (state, data)
    else
      var t := Next(p, state, bodies[0], data);
      Feed(p, t.outcome.next, Apply(data, t), bodies[1..])
  }

  /** Along every conversation: a state that waits for a slot is exactly the first missing one. */
  lemma {:induction false} SlotStateIsFirstMissing(p: Parsers, state: State, data: Data, bodies: seq<string>)
    requires Sound(p) && Kept(state, data) && !state.Unknown?
    ensures
      var (end, known) := Feed(p, state, data, bodies);
      Kept(end, known) && !end.Unknown?
    decreases |bodies|
  {
    if bodies != [] {
      NextIsGood(p, state, bodies[0], data);
      var t := Next(p, state, bodies[0], data);
      SlotStateIsFirstMissing(p, t.outcome.next, Apply(data, t), bodies[1..]);
    }
  }

  lemma NewChatsAreKept(p: Parsers, bodies: seq<string>)
    requires Sound(p)
    ensures
      var (state, data) := Feed(p, NEW, map[], bodies);
      (IsSlot(state) ==> state == NextMissingBuy(data)) && !state.Unknown?
  {
    SlotStateIsFirstMissing(p, NEW, map[], bodies);
  }

  /** Whether DONE wipes the answers somewhere along the way. */
  predicate Wipes(p: Parsers, state: State, data: Data, bodies: seq<string>)
    decreases |bodies|
  {
    bodies != [] &&
    var t := Next(p, state, bodies[0], data);
    t.wiped || Wipes(p, t.outcome.next, Apply(data, t), bodies[1..])
  }

  ghost predicate Grows(data: Data, later: Data) {
    forall k | IsSlotKey(k) && Has(data, k) :: Has(later, k)
  }

  lemma StepGrows(p: Parsers, state: State, body: string, data: Data)
    requires Sound(p) && Kept(state, data)
    ensures
      var t := Next(p, state, body, data);
      t.wiped || Grows(data, Apply(data, t))
  {
    NextIsGood(p, state, body, data);
  }

  /** A filled slot stays filled until DONE wipes the answers. */
  lemma {:induction false} FilledStaysFilled(p: Parsers, state: State, data: Data, bodies: seq<string>)
    requires Sound(p) && Kept(state, data)
    ensures !Wipes(p, state, data, bodies) ==> Grows(data, Feed(p, state, data, bodies).1)
    decreases |bodies|
  {
    if bodies != [] {
      StepGrows(p, state, bodies[0], data);
      NextIsGood(p, state, bodies[0], data);
      var t := Next(p, state, bodies[0], data);
      FilledStaysFilled(p, t.outcome.next, Apply(data, t), bodies[1..]);
    }
  }

  function One(missing: bool): nat {
    if missing then 1 else 0
  }

  function MissingSlots(data: Data): nat {
    One(!HasBudgetSlot(data)) + One(!Has(data, Brand)) + One(!Has(data, Model)) + One(!Has(data, Fuel))
    + One(!Has(data, Transmission)) + One(!Has(data, YearMin))
  }

  lemma GrowingLeavesFewerMissing(data: Data, later: Data)
    requires Grows(data, later)
    ensures MissingSlots(later) <= MissingSlots(data)
    ensures MissingSlots(later) == MissingSlots(data) ==> NextMissingBuy(later) == NextMissingBuy(data)
  {
  }

  predicate Moves(before: State, after: State) {
    IsSlot(before) && IsSlot(after) && before != after
  }

  /** Every move from one slot to another has filled one. */
  lemma MoveFillsASlot(p: Parsers, state: State, body: string, data: Data)
    requires Sound(p) && Kept(state, data)
    ensures
      var t := Next(p, state, body, data);
      && Kept(t.outcome.next, Apply(data, t))
      && (!t.wiped ==> MissingSlots(Apply(data, t)) <= MissingSlots(data))
      && (Moves(state, t.outcome.next) ==> MissingSlots(Apply(data, t)) < MissingSlots(data))
  {
    NextIsGood(p, state, body, data);
    StepGrows(p, state, body, data);
    var t := Next(p, state, body, data);
    if !t.wiped {
      GrowingLeavesFewerMissing(data, Apply(data, t));
    }
  }

  function MovesAlong(p: Parsers, state: State, data: Data, bodies: seq<string>): nat
    decreases |bodies|
  {
    if bodies == [] then 0
    else
      var t := Next(p, state, bodies[0], data);
      One(Moves(state, t.outcome.next)) + MovesAlong(p, t.outcome.next, Apply(data, t), bodies[1..])
  }

  /** Between wipes the questionnaire moves from slot to slot at most as often as slots get filled, so at most six times. */
  lemma {:induction false} MovesAreBounded(p: Parsers, state: State, data: Data, bodies: seq<string>)
    requires Sound(p) && Kept(state, data)
    ensures !Wipes(p, state, data, bodies) ==>
              MovesAlong(p, state, data, bodies) + MissingSlots(Feed(p, state, data, bodies).1) <= MissingSlots(data) <= 6
    decreases |bodies|
  {
    if bodies != [] {
      MoveFillsASlot(p, state, bodies[0], data);
      var t := Next(p, state, bodies[0], data);
      MovesAreBounded(p, t.outcome.next, Apply(data, t), bodies[1..]);
    }
  }

  // ---- what is stored ----

  /** A vehicle named in full at the menu or at the brand step is known by its brand and its model afterwards, in
      this order, whatever else the message said. */
  lemma VehicleIsStored(p: Parsers, body: string, data: Data)
    requires p.brandModel(body).0 != "" && p.brandModel(body).1 != ""
    ensures Knows(data + StartBuying(p, body, data).patch, p.brandModel(body))
    ensures p.choice(body) != 0 && Norm(body) !in ["", "any", "no"] && p.stripKnown(body) != "" ==>
              Knows(data + BrandStep(p, body, data).patch, p.brandModel(body))
  {
    MenuStores(data, ExtractAll(p, body), p.brandModel(body).0, p.brandModel(body).1);
    BrandStores(p, body, data, BrandHints(p, body));
    if p.choice(body) != 0 && Norm(body) !in ["", "any", "no"] && p.stripKnown(body) != "" {
      NoneOfThree(Norm(body));
      assert BrandStep(p, body, data) == TakeBrand(data, BrandName(p, body, BrandHints(p, body)));
    }
  }

  predicate Knows(data: Data, vehicle: (string, string)) {
    Get(data, Brand) == vehicle.0 && Get(data, Model) == vehicle.1
  }

  lemma NoneOfThree(b: string)
    requires b !in ["", "any", "no"]
    ensures b != "" && b != "any" && b != "no"
  {
    assert ["", "any", "no"][0] == "" && ["", "any", "no"][1] == "any" && ["", "any", "no"][2] == "no";
  }

  lemma MenuStores(data: Data, hints: Data, brand: string, model: string)
    requires brand != "" && model != ""
    ensures Knows(data + NamePatch(hints, brand, model), (brand, model))
  {
  }

  lemma BrandStores(p: Parsers, body: string, data: Data, hints: Data)
    requires p.brandModel(body).0 != "" && p.brandModel(body).1 != ""
    ensures Knows(data + TakeBrand(data, BrandName(p, body, hints)).patch, p.brandModel(body))
  {
  }

  /** Slot k holds the answer if there was one, and every other slot the message's hint for it, else what it held. */
  ghost predicate Answered(data: Data, after: Data, hints: Data, k: Key, answer: Option<string>) {
    && Get(after, k) == (if answer.Some? then answer.value else Get(data, k))
    && forall other | other != k :: Get(after, other) == if other in hints then hints[other] else Get(data, other)
  }

  lemma FillAnswers(state: State, data: Data, hints: Data, k: Key, answer: Option<string>, lead: string)
    requires k !in hints
    ensures Answered(data, data + FillStep(state, data, hints, k, answer, lead).patch, hints, k, answer)
  {
  }

  function FuelAnswer(p: Parsers, body: string): Option<string> {
    ChoiceAnswer(body, FindFuel(body), ChoiceFuel(p.choice(body)), FindTrans(body) != "" || HasBudget(p, body))
  }

  function TransAnswer(p: Parsers, body: string): Option<string> {
    ChoiceAnswer(body, FindTrans(body), ChoiceTrans(p.choice(body)), FindFuel(body) != "" || HasBudget(p, body))
  }

  /** The model, fuel and transmission steps store what they read off the message, in the slot they ask for and
      nowhere else. */
  lemma AnswerIsStored(p: Parsers, body: string, data: Data)
    ensures Answered(data, data + ModelStep(p, body, data).patch, ExtractAll(p, body), Model, ModelAnswer(p, body, Has(data, YearMin)))
    ensures Answered(data, data + FuelStep(p, body, data).patch, ExtractAll(p, body) - {Fuel}, Fuel, FuelAnswer(p, body))
    ensures Answered(data, data + TransStep(p, body, data).patch, ExtractAll(p, body) - {Transmission}, Transmission, TransAnswer(p, body))
  {
    ExtractAllIsModest(p, body, data);
    FillAnswers(BUY_MODEL, data, ExtractAll(p, body), Model, ModelAnswer(p, body, Has(data, YearMin)), "Noted. ");
    FillAnswers(BUY_FUEL, data, ExtractAll(p, body) - {Fuel}, Fuel, FuelAnswer(p, body), "");
    FillAnswers(BUY_TRANS, data, ExtractAll(p, body) - {Transmission}, Transmission, TransAnswer(p, body), "");
  }

  /** A message that is read as the choice 0 and as no command, such as "0". */
  ghost predicate Taps(p: Parsers, body: string) {
    p.choice(body) == 0 && forall s :: CommandOf(s, Norm(body)) == Nothing
  }

  /** Leaving a slot for another or for the results. */
  predicate Leaves(state: State, next: State) {
    next != state && (IsSlot(next) || next == BUY_RESULTS)
  }

  lemma FillLeaves(state: State, data: Data, patch: Data, k: Key, answer: Option<string>, lead: string)
    requires answer.Some? && answer.value != "" && NoBlank(data, patch) && Brand !in patch && Model !in patch
    requires (state == BUY_MODEL && k == Model) || (state == BUY_FUEL && k == Fuel) || (state == BUY_TRANS && k == Transmission)
    ensures Leaves(state, FillStep(state, data, patch, k, answer, lead).next)
  {
    MergeIsApply(data, patch[k := answer.value]);
  }

  lemma SkipBudgetLeaves(data: Data)
    ensures Leaves(BUY_BUDGET, SkipBudget(data).next)
  {
    MergeIsApply(data, map[BudgetUnknown := "1"]);
  }

  lemma AnyBrandLeaves(data: Data)
    ensures Leaves(BUY_BRAND, ToMissing(data, map[Brand := "ANY"], "").next)
  {
    MergeIsApply(data, map[Brand := "ANY"]);
  }

  lemma ZeroLeavesNames(p: Parsers, state: State, body: string, data: Data)
    requires p.choice(body) == 0 && (state.BUY_BUDGET? || state.BUY_BRAND?)
    ensures Leaves(state, Dispatch(p, state, body, data).next)
  {
    if state.BUY_BUDGET? {
      SkipBudgetLeaves(data);
      assert BudgetStep(p, body, data) == SkipBudget(data);
    } else {
      AnyBrandLeaves(data);
      assert BrandStep(p, body, data) == ToMissing(data, map[Brand := "ANY"], "");
    }
  }

  lemma ZeroLeavesChoices(p: Parsers, state: State, body: string, data: Data)
    requires p.choice(body) == 0 && IsSlot(state) && !state.BUY_BUDGET? && !state.BUY_BRAND?
    ensures Leaves(state, Dispatch(p, state, body, data).next)
  {
    ExtractAllIsModest(p, body, data);
    if state.BUY_MODEL? {
      FillLeaves(state, data, ExtractAll(p, body), Model, ModelAnswer(p, body, Has(data, YearMin)), "Noted. ");
    } else if state.BUY_FUEL? {
      var answer := ChoiceAnswer(body, FindFuel(body), ChoiceFuel(0), FindTrans(body) != "" || HasBudget(p, body));
      FillLeaves(state, data, ExtractAll(p, body) - {Fuel}, Fuel, answer, "");
    } else if state.BUY_TRANS? {
      var answer := ChoiceAnswer(body, FindTrans(body), ChoiceTrans(0), FindFuel(body) != "" || HasBudget(p, body));
      FillLeaves(state, data, ExtractAll(p, body) - {Transmission}, Transmission, answer, "");
    }
  }

  lemma ZeroLeaves(p: Parsers, state: State, body: string, data: Data)
    requires Sound(p) && Taps(p, body) && IsSlot(state) && Kept(state, data)
    ensures
      Leaves(state, Next(p, state, body, data).outcome.next)
  {
    assert CommandOf(state, Norm(body)) == Nothing;
    assert Next(p, state, body, data).outcome == Dispatch(p, state, body, data);
    if state.BUY_BUDGET? || state.BUY_BRAND? {
      ZeroLeavesNames(p, state, body, data);
    } else {
      ZeroLeavesChoices(p, state, body, data);
    }
  }

  lemma ResultsStay(p: Parsers, body: string, data: Data)
    requires Taps(p, body)
    ensures Next(p, BUY_RESULTS, body, data).outcome.next == BUY_RESULTS
  {
    assert CommandOf(BUY_RESULTS, Norm(body)) == Nothing;
    assert Next(p, BUY_RESULTS, body, data).outcome == Results(p, body);
  }

  /** A customer who only taps 0 sees the results after as many taps as slots were missing, wherever in the
      questionnaire they stand. */
  lemma {:induction false} TappingZeroEnds(p: Parsers, state: State, data: Data, bodies: seq<string>)
    requires Sound(p) && Kept(state, data) && forall i | 0 <= i < |bodies| :: Taps(p, bodies[i])
    requires state == BUY_RESULTS || (IsSlot(state) && |bodies| >= MissingSlots(data))
    ensures Feed(p, state, data, bodies).0 == BUY_RESULTS
    decreases |bodies|
  {
    if bodies == [] {
      assert !IsSlot(state);
    } else {
      var t := Next(p, state, bodies[0], data);
      NextIsGood(p, state, bodies[0], data);
      if state == BUY_RESULTS {
        ResultsStay(p, bodies[0], data);
      } else {
        ZeroLeaves(p, state, bodies[0], data);
        MoveFillsASlot(p, state, bodies[0], data);
      }
      TappingZeroEnds(p, t.outcome.next, Apply(data, t), bodies[1..]);
    }
  }
}
