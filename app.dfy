/** The root component of the wallet (src/App.jsx): eight pieces of state, a
    back handler that follows a fixed parent map, a continue handler that
    dispatches on the active screen and the data the screen hands over, and a
    completion handler whose timer later returns to the wallet.

    The pure part (State, the step functions, Run and the lemmas) is the
    specification; the class WalletApp holds the same fields as mutable state
    and its methods update them statement by statement as the handlers do. */
module App {
  import opened JsValue
  import opened Wrappers

  /** The screens the component can show; `activeScreen` only ever holds one of
      these, because every write goes through `navigate` with a literal. */
  datatype Screen =
    | Wallet | Amount | Note | Review | Qr | Processing
    | Group | Expense | SplitDetails | NewGroup

  /** A call on the group/bill store. The store is not part of this model, so
      its calls are recorded in order rather than carried out. */
  datatype Command =
    | AddGroup(group: Value)
    | AddBill(groupId: Value, bill: Value)
    | UpdateBill(groupId: Value, billId: Value, data: Value)
    | DeleteBill(groupId: Value, billId: Value)

  /** The component's state: the eight `useState` fields, the store calls made
      so far and the number of `setTimeout` callbacks not yet run. */
  datatype State = State(
    screen: Screen,
    transactionType: Value,
    transactionAmount: Value,
    transactionNote: Value,
    selectedGroup: Value,
    expense: Value,
    selectedBill: Value,
    showConfetti: bool,
    effects: seq<Command>,
    pendingTimers: nat)

  /** The initial values passed to `useState`. */
  const Initial: State :=
    State(Wallet, Str("send"), Null, Str(""), Null, Null, Null, false, [], 0)

  /** The tokens the wallet screen hands to the continue handler. */
  const WalletTokens: seq<string> := ["send", "request", "split", "deposit", "cashout", "history"]

  /** What a handler did: the next state, or a TypeError thrown by a property
      read on null/undefined. Every such read comes before the first setter or
      store call of its branch, so a throw leaves the state as it was. */
  datatype Reaction = Next(next: State) | Threw

  /** An event the component reacts to. */
  datatype Event =
    | BackPressed                                            // onBack
    | Continued(data: Value)                                 // onContinue, onNavigate, NewGroupScreen's onComplete
    | Completed                                              // ReviewScreen's onComplete
    | TimerFired                                             // a pending setTimeout callback runs
    | QrClosed                                               // QRScreen's onClose
    | ProcessingClosed                                       // ProcessingScreen's onClose
    | BillDeleted(groupId: Value, billId: Value)             // GroupScreen's onDeleteBill
    | BillUpdated(groupId: Value, billId: Value, data: Value) // GroupScreen's onUpdateBill
    | SelectedBillUpdated(data: Value)                       // SplitDetailsScreen's onUpdateBill

  // ---------------------------------------------------------------------------
  // Back

  /** Where the back button leads from each screen; the wallet and the
      processing screen have no parent. */
  function Parent(screen: Screen): (p: Option<Screen>)
    ensures p.Some? ==> p.value != screen && p.value != Processing
    ensures p.None? <==> screen == Wallet || screen == Processing
  {
    match screen
    case Amount => Some(Wallet)
    case Note => Some(Amount)
    case Review => Some(Note)
    case Qr => Some(Note)
    case Group => Some(Wallet)
    case Expense => Some(Group)
    case SplitDetails => Some(Group)
    case NewGroup => Some(Group)
    case Wallet => None
    case Processing => None
  }

  /** handleBack: moves to the parent screen, if there is one, and changes
      nothing else. */
  function BackStep(s: State): (t: State)
    ensures t == s.(screen := t.screen)
    ensures t.screen == s.screen <==> s.screen == Wallet || s.screen == Processing
  {
    match Parent(s.screen)
    case Some(p) => s.(screen := p)
    case None => s
  }

  /** The number of back presses from a screen to the wallet. */
  function Depth(screen: Screen): nat {
    match Parent(screen)
    case None => 0
    case Some(p) =>
      match Parent(p)
      case None => 1
      case Some(q) => if Parent(q).None? then 2 else 3
  }

  function BackTimes(s: State, n: nat): State
    decreases n
  {
    if n == 0 then s else BackTimes(BackStep(s), n - 1)
  }

  // ---------------------------------------------------------------------------
  // Continue

  /** The bill built from the expense screen's data: its amount, its
      description or 'No description' when that is empty, dated 'Today' and
      not settled. */
  function NewBill(data: Value): (bill: Value)
    requires !IsNullish(data)
    ensures bill.Obj? && bill.props.Keys == {"amount", "description", "date", "settled"}
    ensures bill.props["amount"] == Get(data, "amount")
    ensures Truthy(bill.props["description"])
    ensures Truthy(Get(data, "description")) ==> bill.props["description"] == Get(data, "description")
    ensures !Truthy(Get(data, "description")) ==> bill.props["description"] == Str("No description")
    ensures bill.props["date"] == Str("Today") && bill.props["settled"] == Bool(false)
  {
    Obj(map[
      "amount" := Get(data, "amount"),
      "description" := Or(Get(data, "description"), Str("No description")),
      "date" := Str("Today"),
      "settled" := Bool(false)])
  }

  /** The continue handler: what the active screen does with the data its
      screen hands over. Screens without a branch (review, QR, processing)
      ignore it. */
  function ContinueStep(s: State, data: Value): (r: Reaction)
    ensures r.Threw? ==> s.screen == Group || s.screen == Expense || s.screen == SplitDetails
    ensures s.screen == Review || s.screen == Qr || s.screen == Processing ==> r == Next(s)
  {
    match s.screen
    case Wallet => FromWallet(s, data)
    case Group => FromGroup(s, data)
    case NewGroup => FromNewGroup(s, data)
    case Expense => FromExpense(s, data)
    case SplitDetails => FromSplitDetails(s, data)
    case Amount => FromAmount(s, data)
    case Note => FromNote(s, data)
    case Review => Next(s)
    case Qr => Next(s)
    case Processing => Next(s)
  }

  /** The wallet's token becomes the transaction type; 'split' opens the
      group list, anything else the amount screen. */
  function FromWallet(s: State, data: Value): (r: Reaction)
    ensures r.Next? && r.next == s.(transactionType := data, screen := r.next.screen)
    ensures r.next.screen == Group <==> data == Str("split")
    ensures r.next.screen == Group || r.next.screen == Amount
  {
    Next(s.(transactionType := data, screen := if data == Str("split") then Group else Amount))
  }

  /** A picked group: 'new' opens the form; any other group is selected and
      opens its attached bill, or the expense form when it has none. */
  function FromGroup(s: State, data: Value): (r: Reaction)
    ensures r.Threw? <==> IsNullish(data)
    ensures r.Next? ==> r.next.effects == s.effects
    ensures r.Next? ==> (r.next.screen == NewGroup <==> Get(data, "id") == Str("new"))
    ensures r.Next? && r.next.screen == NewGroup ==> r.next == s.(screen := NewGroup)
    ensures r.Next? && r.next.screen != NewGroup ==>
      r.next == s.(selectedGroup := data, selectedBill := r.next.selectedBill, screen := r.next.screen)
    ensures r.Next? && r.next.screen != NewGroup ==>
      && r.next.selectedGroup == data
      && (r.next.screen == SplitDetails <==> Truthy(Get(data, "selectedBill")))
      && (r.next.screen == SplitDetails ==> r.next.selectedBill == Get(data, "selectedBill"))
      && (r.next.screen == Expense ==> r.next.selectedBill == s.selectedBill)
      && r.next.screen in {SplitDetails, Expense}
  {
    if IsNullish(data) then Threw
    else if Get(data, "id") == Str("new") then Next(s.(screen := NewGroup))
    else if Truthy(Get(data, "selectedBill")) then
      Next(s.(selectedGroup := data, selectedBill := Get(data, "selectedBill"), screen := SplitDetails))
    else
      Next(s.(selectedGroup := data, screen := Expense))
  }

  /** The new group, with an empty bill list, is added, selected and given
      its first expense. */
  function FromNewGroup(s: State, data: Value): (r: Reaction)
    ensures r.Next? && r.next.screen == Expense
    ensures r.next.effects == s.effects + [AddGroup(r.next.selectedGroup)]
    ensures r.next.selectedGroup.Obj? && "bills" in r.next.selectedGroup.props
    ensures r.next.selectedGroup.props.Keys == OwnProps(data).Keys + {"bills"}
    ensures r.next == s.(effects := r.next.effects, selectedGroup := r.next.selectedGroup, screen := Expense)
  {
    var group := SpreadWith(data, "bills", Arr([]));
    Next(s.(effects := s.effects + [AddGroup(group)], selectedGroup := group, screen := Expense))
  }

  /** The expense becomes a bill of the selected group. */
  function FromExpense(s: State, data: Value): (r: Reaction)
    ensures r.Threw? <==> IsNullish(data) || IsNullish(s.selectedGroup)
    ensures r.Next? ==>
      && r.next == s.(effects := r.next.effects, screen := Group)
      && |r.next.effects| == |s.effects| + 1 && r.next.effects[..|s.effects|] == s.effects
      && r.next.effects[|s.effects|].AddBill?
      && r.next.effects[|s.effects|].groupId == Get(s.selectedGroup, "id")
      && r.next.effects[|s.effects|].bill == NewBill(data)
  {
    if IsNullish(data) || IsNullish(s.selectedGroup) then Threw
    else Next(s.(effects := s.effects + [AddBill(Get(s.selectedGroup, "id"), NewBill(data))], screen := Group))
  }

  /** The selected bill, if any, is marked settled; then confetti, the
      processing screen and a timer. */
  function FromSplitDetails(s: State, data: Value): (r: Reaction)
    ensures r.Threw? <==> Truthy(s.selectedBill) && IsNullish(s.selectedGroup)
    ensures r.Next? ==>
      && r.next.screen == Processing && r.next.showConfetti
      && r.next.pendingTimers == s.pendingTimers + 1
      && |r.next.effects| == |s.effects| + (if Truthy(s.selectedBill) then 1 else 0)
      && r.next.effects[..|s.effects|] == s.effects
      && r.next == s.(effects := r.next.effects, showConfetti := true, screen := Processing,
                      pendingTimers := r.next.pendingTimers)
  {
    if !Truthy(s.selectedBill) then
      Next(s.(showConfetti := true, screen := Processing, pendingTimers := s.pendingTimers + 1))
    else if IsNullish(s.selectedGroup) then Threw
    else
      var settled := SpreadWith(s.selectedBill, "settled", Bool(true));
      var update := UpdateBill(Get(s.selectedGroup, "id"), Get(s.selectedBill, "id"), settled);
      Next(s.(effects := s.effects + [update], showConfetti := true, screen := Processing,
              pendingTimers := s.pendingTimers + 1))
  }

  /** The amount is kept and the note screen shown. */
  function FromAmount(s: State, data: Value): (r: Reaction)
    ensures r.Next? && r.next.transactionAmount == data && r.next.screen == Note
    ensures r.next == s.(transactionAmount := data, screen := r.next.screen)
  {
    Next(s.(transactionAmount := data, screen := Note))
  }

  /** The note is kept; a request shows its QR code, anything else the review. */
  function FromNote(s: State, data: Value): (r: Reaction)
    ensures r.Next? && r.next.transactionNote == data
    ensures r.next.screen == Qr <==> s.transactionType == Str("request")
    ensures r.next.screen == Qr || r.next.screen == Review
    ensures r.next == s.(transactionNote := data, screen := r.next.screen)
  {
    Next(s.(transactionNote := data, screen := if s.transactionType == Str("request") then Qr else Review))
  }

  // ---------------------------------------------------------------------------
  // Completion, timers, closing and the store pass-throughs

  /** handleComplete: confetti, the processing screen and one more timer. */
  function CompleteStep(s: State): (t: State)
    ensures t.screen == Processing && t.showConfetti && t.pendingTimers == s.pendingTimers + 1
    ensures t == s.(screen := t.screen, showConfetti := t.showConfetti, pendingTimers := t.pendingTimers)
  {
    s.(showConfetti := true, screen := Processing, pendingTimers := s.pendingTimers + 1)
  }

  /** A pending completion timer runs: confetti off, back to the wallet. */
  function TimerStep(s: State): (t: State)
    ensures s.pendingTimers == 0 ==> t == s
    ensures s.pendingTimers > 0 ==> t.screen == Wallet && !t.showConfetti && t.pendingTimers + 1 == s.pendingTimers
    ensures t == s.(screen := t.screen, showConfetti := t.showConfetti, pendingTimers := t.pendingTimers)
  {
    if s.pendingTimers == 0 then s
    else s.(showConfetti := false, screen := Wallet, pendingTimers := s.pendingTimers - 1)
  }

  /** SplitDetailsScreen's onUpdateBill: reads the selected group's and
      bill's ids, so it throws when either is missing. */
  function UpdateSelectedBillStep(s: State, data: Value): (r: Reaction)
    ensures r.Threw? <==> IsNullish(s.selectedGroup) || IsNullish(s.selectedBill)
    ensures r.Next? ==>
      && r.next == s.(effects := r.next.effects)
      && |r.next.effects| == |s.effects| + 1 && r.next.effects[..|s.effects|] == s.effects
      && r.next.effects[|s.effects|].UpdateBill? && r.next.effects[|s.effects|].data == data
      && r.next.effects[|s.effects|].groupId == Get(s.selectedGroup, "id")
      && r.next.effects[|s.effects|].billId == Get(s.selectedBill, "id")
  {
    if IsNullish(s.selectedGroup) || IsNullish(s.selectedBill) then Threw
    else Next(s.(effects := s.effects + [UpdateBill(Get(s.selectedGroup, "id"), Get(s.selectedBill, "id"), data)]))
  }

  /** The label the processing screen shows for the current transaction type. */
  function ProcessingLabel(transactionType: Value): (caption: string)
    ensures caption == "Sending" <==> transactionType == Str("send")
    ensures caption == "Sending" || caption == "Requesting"
  {
    if transactionType == Str("send") then "Sending" else "Requesting"
  }

  function After(s: State, r: Reaction): State {
    match r
    case Next(t) => t
    case Threw => s
  }

  /** One event. The store log only ever grows, by at most one call. */
  function Step(s: State, e: Event): (t: State)
    ensures |s.effects| <= |t.effects| <= |s.effects| + 1
    ensures t.effects[..|s.effects|] == s.effects
  {
    match e
    case BackPressed => BackStep(s)
    case Continued(data) => After(s, ContinueStep(s, data))
    case Completed => CompleteStep(s)
    case TimerFired => TimerStep(s)
    case QrClosed => s.(screen := Wallet)
    case ProcessingClosed => s.(screen := Wallet)
    case BillDeleted(g, b) => s.(effects := s.effects + [DeleteBill(g, b)])
    case BillUpdated(g, b, d) => s.(effects := s.effects + [UpdateBill(g, b, d)])
    case SelectedBillUpdated(d) => After(s, UpdateSelectedBillStep(s, d))
  }

  /** A sequence of events; the store log is only ever appended to, by at
      most one call per event. */
  function Run(s: State, events: seq<Event>): (t: State)
    ensures |s.effects| <= |t.effects| <= |s.effects| + |events|
    ensures t.effects[..|s.effects|] == s.effects
    decreases |events|
  {
    if events == [] then s else Run(Step(s, events[0]), events[1..])
  }

  // ---------------------------------------------------------------------------
  // The invariant of every reachable state

  /** The expense and split screens always have a group to read the id of,
      the split screen a bill, confetti and the processing screen always have
      a timer pending that will end them, and `expense` is never set. */
  ghost predicate Inv(s: State) {
    && (s.screen == Expense || s.screen == SplitDetails ==> !IsNullish(s.selectedGroup))
    && (s.screen == SplitDetails ==> Truthy(s.selectedBill))
    && (s.showConfetti || s.screen == Processing ==> s.pendingTimers > 0)
    && s.expense == Null
  }

  lemma StepPreservesInv(s: State, e: Event)
    requires Inv(s)
    ensures Inv(Step(s, e))
  {
  }

  lemma {:induction false} RunPreservesInv(s: State, events: seq<Event>)
    requires Inv(s)
    ensures Inv(Run(s, events))
    decreases |events|
  {
    if events != [] {
      StepPreservesInv(s, events[0]);
      RunPreservesInv(Step(s, events[0]), events[1..]);
    }
  }

  lemma ReachableSatisfiesInv(events: seq<Event>)
    ensures Inv(Run(Initial, events))
  {
    RunPreservesInv(Initial, events);
  }

  /** In a reachable state the continue handler throws exactly when the group
      or expense screen hands over null or undefined: the reads of
      `selectedGroup.id` and `selectedBill.id` never fail. */
  lemma ContinueThrowsOnlyOnMissingData(events: seq<Event>, data: Value)
    ensures var s := Run(Initial, events);
      ContinueStep(s, data).Threw? <==> (s.screen == Group || s.screen == Expense) && IsNullish(data)
  {
    ReachableSatisfiesInv(events);
  }

  /** In a reachable state, the split screen's own bill update never throws:
      the selected group and bill whose ids it reads are always there. */
  lemma SplitUpdateNeverThrows(events: seq<Event>, data: Value)
    requires Run(Initial, events).screen == SplitDetails
    ensures UpdateSelectedBillStep(Run(Initial, events), data).Next?
  {
    ReachableSatisfiesInv(events);
    TruthyIsNotNullish(Run(Initial, events).selectedBill);
  }

  /** In a reachable state, continuing from the split screen always settles
      the selected bill: exactly one store update, on the selected group's id
      and the bill's id, with `settled` true and the bill's other fields kept;
      then confetti and the processing screen. */
  lemma SplitContinueSettlesBill(events: seq<Event>, data: Value)
    requires Run(Initial, events).screen == SplitDetails
    ensures var s := Run(Initial, events);
      && !IsNullish(s.selectedGroup) && !IsNullish(s.selectedBill)
      && ContinueStep(s, data).Next?
      && var r := ContinueStep(s, data).next;
      && |r.effects| == |s.effects| + 1
      && r.effects[..|s.effects|] == s.effects
      && var c := r.effects[|s.effects|];
      && c.UpdateBill?
      && c.groupId == Get(s.selectedGroup, "id") && c.billId == Get(s.selectedBill, "id")
      && c.data.Obj? && "settled" in c.data.props && c.data.props["settled"] == Bool(true)
      && c.data.props.Keys == OwnProps(s.selectedBill).Keys + {"settled"}
      && (forall k :: k in OwnProps(s.selectedBill) && k != "settled" ==>
            k in c.data.props && c.data.props[k] == OwnProps(s.selectedBill)[k])
      && r.screen == Processing && r.showConfetti
  {
    var s := Run(Initial, events);
    ReachableSatisfiesInv(events);
    TruthyIsNotNullish(s.selectedBill);
  }

  /** A pending timer always returns to the wallet with the confetti off,
      whatever screen the user has moved to in the meantime. */
  lemma TimerAlwaysReturnsToWallet(s: State)
    requires s.pendingTimers > 0
    ensures TimerStep(s).screen == Wallet && !TimerStep(s).showConfetti
    ensures TimerStep(s).pendingTimers == s.pendingTimers - 1
    ensures TimerStep(s) == s.(screen := Wallet, showConfetti := false, pendingTimers := s.pendingTimers - 1)
  {
  }

  /** In a reachable state, the processing screen and the confetti never
      stay: the next timer event ends both. */
  lemma ProcessingAlwaysEnds(events: seq<Event>)
    requires var s := Run(Initial, events); s.screen == Processing || s.showConfetti
    ensures var t := Run(Initial, events + [TimerFired]); t.screen == Wallet && !t.showConfetti
  {
    ReachableSatisfiesInv(events);
    RunAppend(Initial, events, TimerFired);
  }

  lemma {:induction false} RunAppend(s: State, events: seq<Event>, e: Event)
    ensures Run(s, events + [e]) == Step(Run(s, events), e)
    decreases |events|
  {
    if events == [] {
      assert [e][1..] == [];
    } else {
      assert (events + [e])[1..] == events[1..] + [e];
      RunAppend(Step(s, events[0]), events[1..], e);
    }
  }

  /** The stale-timer case: a send completed, its processing screen closed by
      hand and a new send begun; the old timer still takes the user from the
      amount screen back to the wallet. */
  lemma StaleTimerInterruptsNextFlow()
    ensures Run(Initial, [Continued(Str("send")), Continued(Num(5)), Continued(Str("")), Completed,
                          ProcessingClosed, Continued(Str("send"))]).screen == Amount
    ensures Run(Initial, [Continued(Str("send")), Continued(Num(5)), Continued(Str("")), Completed,
                          ProcessingClosed, Continued(Str("send")), TimerFired]).screen == Wallet
  {
  }

  // ---------------------------------------------------------------------------
  // Back: its map, its inverse and its end

  /** Back changes the screen and nothing else, following the parent map;
      on the wallet and processing screens it does nothing. */
  lemma BackFollowsParent(s: State)
    ensures BackStep(s) == s.(screen := BackStep(s).screen)
    ensures Parent(s.screen).Some? ==> BackStep(s).screen == Parent(s.screen).value
    ensures s.screen == Wallet || s.screen == Processing ==> BackStep(s) == s
  {
  }

  /** Back undoes the forward move of the wallet, amount, note and group
      screens: continuing and then going back returns to the same screen. */
  lemma BackUndoesContinue(s: State, data: Value)
    requires s.screen in {Wallet, Amount, Note, Group}
    requires ContinueStep(s, data).Next?
    ensures BackStep(ContinueStep(s, data).next).screen == s.screen
  {
  }

  /** From every screen but processing, at most three presses of back reach
      the wallet. */
  lemma {:induction false} BackReachesWallet(s: State)
    requires s.screen != Processing
    ensures Depth(s.screen) <= 3
    ensures BackTimes(s, Depth(s.screen)).screen == Wallet
    ensures BackTimes(s, Depth(s.screen)) == s.(screen := Wallet)
    decreases Depth(s.screen)
  {
    if Depth(s.screen) > 0 {
      BackReachesWallet(BackStep(s));
    }
  }

  // ---------------------------------------------------------------------------
  // Continue from the wallet, the split screen and completion

  /** Every wallet button records its token as the transaction type; 'split'
      opens the group list and every other token, including 'deposit',
      'cashout' and 'history', opens the amount screen. Nothing else changes. */
  lemma WalletButtons(s: State)
    requires s.screen == Wallet
    ensures forall t :: t in WalletTokens ==>
      && ContinueStep(s, Str(t)).Next?
      && ContinueStep(s, Str(t)).next == s.(transactionType := Str(t), screen := if t == "split" then Group else Amount)
  {
  }

  /** Continuing from the split screen does what the completion handler does
      (confetti, the processing screen, one more pending timer) and in
      addition records one bill update exactly when a bill is selected. */
  lemma SplitContinueIsCompletionPlusSettle(s: State, data: Value)
    requires s.screen == SplitDetails
    requires ContinueStep(s, data).Next?
    ensures var r := ContinueStep(s, data).next;
      && r.(effects := s.effects) == CompleteStep(s)
      && r.effects[..|s.effects|] == s.effects
      && |r.effects| == |s.effects| + (if Truthy(s.selectedBill) then 1 else 0)
  {
  }

  // ---------------------------------------------------------------------------
  // Whole flows

  /** Send and request: from the wallet, a token other than 'split', then an
      amount, then a note, ends on the QR screen exactly for 'request' and on
      the review screen otherwise, holding the three values and with nothing
      else changed. */
  lemma PaymentFlow(s: State, token: string, amount: Value, note: Value)
    requires s.screen == Wallet && token != "split"
    ensures var r := Run(s, [Continued(Str(token)), Continued(amount), Continued(note)]);
      && r.screen == (if token == "request" then Qr else Review)
      && r == s.(screen := r.screen, transactionType := Str(token),
                 transactionAmount := amount, transactionNote := note)
  {
    var s1 := Step(s, Continued(Str(token)));
    var s2 := Step(s1, Continued(amount));
    var s3 := Step(s2, Continued(note));
    assert Run(s, [Continued(Str(token)), Continued(amount), Continued(note)])
        == Run(s1, [Continued(amount), Continued(note)]);
    assert Run(s1, [Continued(amount), Continued(note)]) == Run(s2, [Continued(note)]);
    assert Run(s2, [Continued(note)]) == Run(s3, []);
  }

  /** Split into an existing group without a bill: from the wallet, 'split',
      then the group, then the expense, returns to the group list having
      recorded exactly one new bill for that group's id. */
  lemma SplitExpenseFlow(s: State, group: Value, expenseData: Value)
    requires s.screen == Wallet
    requires group.Obj? && Get(group, "id") != Str("new") && !Truthy(Get(group, "selectedBill"))
    requires !IsNullish(expenseData)
    ensures var r := Run(s, [Continued(Str("split")), Continued(group), Continued(expenseData)]);
      && r.screen == Group
      && r.selectedGroup == group
      && r.effects == s.effects + [AddBill(Get(group, "id"), NewBill(expenseData))]
      && r.transactionType == Str("split")
  {
    var s1 := Step(s, Continued(Str("split")));
    var s2 := Step(s1, Continued(group));
    var s3 := Step(s2, Continued(expenseData));
    assert Run(s, [Continued(Str("split")), Continued(group), Continued(expenseData)])
        == Run(s1, [Continued(group), Continued(expenseData)]);
    assert Run(s1, [Continued(group), Continued(expenseData)]) == Run(s2, [Continued(expenseData)]);
    assert Run(s2, [Continued(expenseData)]) == Run(s3, []);
  }

  /** Continuing from the new-group screen records the group with an empty
      bill list, selects that same object and opens the expense screen. */
  lemma NewGroupIsAddedAndSelected(s: State, data: Value)
    requires s.screen == NewGroup
    ensures var r := ContinueStep(s, data);
      && r.Next?
      && r.next.effects == s.effects + [AddGroup(r.next.selectedGroup)]
      && r.next.selectedGroup.Obj?
      && r.next.selectedGroup.props["bills"] == Arr([])
      && r.next.selectedGroup.props.Keys == OwnProps(data).Keys + {"bills"}
      && (forall k :: k in OwnProps(data) && k != "bills" ==>
            k in r.next.selectedGroup.props && r.next.selectedGroup.props[k] == OwnProps(data)[k])
      && r.next.screen == Expense
  {
  }

  /** Picking a group: 'new' opens the new-group form and selects nothing;
      any other group is selected and leads to its bill when one is attached,
      otherwise to the expense form. */
  lemma GroupPick(s: State, data: Value)
    requires s.screen == Group && !IsNullish(data)
    ensures var r := ContinueStep(s, data).next;
      && ContinueStep(s, data).Next?
      && (Get(data, "id") == Str("new") ==> r == s.(screen := NewGroup))
      && (Get(data, "id") != Str("new") ==>
            && r == s.(selectedGroup := r.selectedGroup, selectedBill := r.selectedBill, screen := r.screen)
            && r.selectedGroup == data
            && (r.screen == SplitDetails <==> Truthy(Get(data, "selectedBill")))
            && (r.screen == SplitDetails ==> r.selectedBill == Get(data, "selectedBill"))
            && (r.screen != SplitDetails ==> r.screen == Expense && r.selectedBill == s.selectedBill))
      && r.effects == s.effects
  {
  }

  // ---------------------------------------------------------------------------
  // The component as mutable state

  class WalletApp {
    var activeScreen: Screen
    var transactionType: Value
    var transactionAmount: Value
    var transactionNote: Value
    var selectedGroup: Value
    var expense: Value
    var selectedBill: Value
    var showConfetti: bool
    var effects: seq<Command>
    var pendingTimers: nat

    function Snapshot(): State
      reads this
    {
      State(activeScreen, transactionType, transactionAmount, transactionNote,
            selectedGroup, expense, selectedBill, showConfetti, effects, pendingTimers)
    }

    constructor ()
      ensures Snapshot() == Initial
    {
      activeScreen := Wallet;
      transactionType := Str("send");
      transactionAmount := Null;
      transactionNote := Str("");
      selectedGroup := Null;
      expense := Null;
      selectedBill := Null;
      showConfetti := false;
      effects := [];
      pendingTimers := 0;
    }

    /** Shows another screen and changes nothing else. */
    method Navigate(screen: Screen)
      modifies this`activeScreen
      ensures activeScreen == screen
      ensures Snapshot() == old(Snapshot()).(screen := screen)
    {
      activeScreen := screen;
    }

    /** The back handler. Every test reads the screen the handler was rendered
        with, not the one a previous test just navigated to, so one branch at
        most takes effect. */
    method Back()
      modifies this
      ensures Snapshot() == Step(old(Snapshot()), BackPressed)
    {
      var current := activeScreen;
      if current == Amount { Navigate(Wallet); }
      if current == Note { Navigate(Amount); }
      if current == Review { Navigate(Note); }
      if current == Qr { Navigate(Note); }
      if current == Group { Navigate(Wallet); }
      if current == Expense { Navigate(Group); }
      if current == SplitDetails { Navigate(Group); }
      if current == NewGroup { Navigate(Group); }
    }

    /** The continue handler: the branch for the active screen; ok is false
        when it throws, and then nothing has changed. */
    method Continue(data: Value) returns (ok: bool)
      modifies this
      ensures ok <==> ContinueStep(old(Snapshot()), data).Next?
      ensures Snapshot() == Step(old(Snapshot()), Continued(data))
    {
      ok := true;
      var current := activeScreen;
      if current == Wallet {
        ContinueFromWallet(data);
      } else if current == Group {
        ok := ContinueFromGroup(data);
      } else if current == NewGroup {
        ContinueFromNewGroup(data);
      } else if current == Expense {
        ok := ContinueFromExpense(data);
      } else if current == SplitDetails {
        ok := ContinueFromSplitDetails(data);
      } else if current == Amount {
        ContinueFromAmount(data);
      } else if current == Note {
        ContinueFromNote(data);
      }
    }

    method ContinueFromWallet(data: Value)
      requires activeScreen == Wallet
      modifies this
      ensures Snapshot() == FromWallet(old(Snapshot()), data).next
    {
      transactionType := data;
      if data == Str("split") {
        Navigate(Group);
      } else {
        Navigate(Amount);
      }
    }

    method ContinueFromGroup(data: Value) returns (ok: bool)
      requires activeScreen == Group
      modifies this
      ensures ok <==> FromGroup(old(Snapshot()), data).Next?
      ensures Snapshot() == After(old(Snapshot()), FromGroup(old(Snapshot()), data))
    {
      ok := !IsNullish(data);
      if !ok {
        return;
      }
      if Get(data, "id") == Str("new") {
        Navigate(NewGroup);
      } else {
        selectedGroup := data;
        if Truthy(Get(data, "selectedBill")) {
          selectedBill := Get(data, "selectedBill");
          Navigate(SplitDetails);
        } else {
          Navigate(Expense);
        }
      }
    }

    method ContinueFromNewGroup(data: Value)
      requires activeScreen == NewGroup
      modifies this
      ensures Snapshot() == FromNewGroup(old(Snapshot()), data).next
    {
      var newGroup := SpreadWith(data, "bills", Arr([]));
      effects := effects + [AddGroup(newGroup)];
      selectedGroup := newGroup;
      Navigate(Expense);
    }

    method ContinueFromExpense(data: Value) returns (ok: bool)
      requires activeScreen == Expense
      modifies this
      ensures ok <==> FromExpense(old(Snapshot()), data).Next?
      ensures Snapshot() == After(old(Snapshot()), FromExpense(old(Snapshot()), data))
    {
      ok := !IsNullish(data) && !IsNullish(selectedGroup);
      if !ok {
        return;
      }
      var newBill := NewBill(data);
      effects := effects + [AddBill(Get(selectedGroup, "id"), newBill)];
      Navigate(Group);
    }

    method ContinueFromSplitDetails(data: Value) returns (ok: bool)
      requires activeScreen == SplitDetails
      modifies this
      ensures ok <==> FromSplitDetails(old(Snapshot()), data).Next?
      ensures Snapshot() == After(old(Snapshot()), FromSplitDetails(old(Snapshot()), data))
    {
      ok := !(Truthy(selectedBill) && IsNullish(selectedGroup));
      if !ok {
        return;
      }
      if Truthy(selectedBill) {
        var settled := SpreadWith(selectedBill, "settled", Bool(true));
        effects := effects + [UpdateBill(Get(selectedGroup, "id"), Get(selectedBill, "id"), settled)];
      }
      showConfetti := true;
      Navigate(Processing);
      pendingTimers := pendingTimers + 1;
    }

    method ContinueFromAmount(data: Value)
      requires activeScreen == Amount
      modifies this
      ensures Snapshot() == FromAmount(old(Snapshot()), data).next
    {
      transactionAmount := data;
      Navigate(Note);
    }

    method ContinueFromNote(data: Value)
      requires activeScreen == Note
      modifies this
      ensures Snapshot() == FromNote(old(Snapshot()), data).next
    {
      transactionNote := data;
      if transactionType == Str("request") {
        Navigate(Qr);
      } else {
        Navigate(Review);
      }
    }

    /** The completion handler: confetti on, the processing screen, and a
        timer scheduled. */
    method Complete()
      modifies this
      ensures Snapshot() == Step(old(Snapshot()), Completed)
    {
      showConfetti := true;
      Navigate(Processing);
      pendingTimers := pendingTimers + 1;
    }

    /** One pending timer callback runs; fired is false when none is pending. */
    method FireTimer() returns (fired: bool)
      modifies this
      ensures fired <==> old(pendingTimers) > 0
      ensures Snapshot() == Step(old(Snapshot()), TimerFired)
    {
      fired := pendingTimers > 0;
      if fired {
        showConfetti := false;
        Navigate(Wallet);
        pendingTimers := pendingTimers - 1;
      }
    }

    /** QRScreen's close button. */
    method CloseQr()
      modifies this
      ensures Snapshot() == Step(old(Snapshot()), QrClosed)
    {
      Navigate(Wallet);
    }

    /** ProcessingScreen's close button. */
    method CloseProcessing()
      modifies this
      ensures Snapshot() == Step(old(Snapshot()), ProcessingClosed)
    {
      Navigate(Wallet);
    }

    /** handleDeleteBill: passes the call to the store. */
    method DeleteBillOf(groupId: Value, billId: Value)
      modifies this
      ensures Snapshot() == Step(old(Snapshot()), BillDeleted(groupId, billId))
    {
      effects := effects + [DeleteBill(groupId, billId)];
    }

    /** handleUpdateBill: passes the call to the store. */
    method UpdateBillOf(groupId: Value, billId: Value, data: Value)
      modifies this
      ensures Snapshot() == Step(old(Snapshot()), BillUpdated(groupId, billId, data))
    {
      effects := effects + [UpdateBill(groupId, billId, data)];
    }

    /** The split screen's bill update: the store call on the selected group's
        and bill's ids; ok is false when either read throws. */
    method UpdateSelectedBill(data: Value) returns (ok: bool)
      modifies this
      ensures ok <==> !IsNullish(old(selectedGroup)) && !IsNullish(old(selectedBill))
      ensures Snapshot() == Step(old(Snapshot()), SelectedBillUpdated(data))
    {
      ok := !IsNullish(selectedGroup) && !IsNullish(selectedBill);
      if ok {
        effects := effects + [UpdateBill(Get(selectedGroup, "id"), Get(selectedBill, "id"), data)];
      }
    }
  }

}
