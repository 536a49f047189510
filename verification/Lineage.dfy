/** Retry lineages: a row, its clone, the clone's clone, and so on
    (go/internal/db/outbox.go, go/internal/db/tx_cancel_reconcile.go). */
module Lineage {
  import opened Tables
  import opened SendScope
  import opened Outbox
  import opened Receipts
  import opened Runs
  import opened OutboxEffects

  /** The first row of a lineage. */
  ghost function Root(db: Db, id: nat): nat
    requires ParentsOk(db) && id in db.outbox
    decreases id
  {
    if db.outbox[id].retryOf.None? then id
    else assert ParentOk(db, id, db.outbox[id].retryOf.value); Root(db, db.outbox[id].retryOf.value)
  }

  /** How many clones separate a row from its root. */
  ghost function Depth(db: Db, id: nat): nat
    requires ParentsOk(db) && id in db.outbox
    decreases id
  {
    if db.outbox[id].retryOf.None? then 0
    else assert ParentOk(db, id, db.outbox[id].retryOf.value); 1 + Depth(db, db.outbox[id].retryOf.value)
  }

  /** A lineage holds one row per depth. */
  lemma {:induction false} OneRowPerDepth(db: Db, a: nat, b: nat)
    requires WellFormed(db) && a in db.outbox && b in db.outbox
    requires Root(db, a) == Root(db, b) && Depth(db, a) == Depth(db, b)
    ensures a == b
    decreases a
  {
    if db.outbox[a].retryOf.Some? {
      var p, q := db.outbox[a].retryOf.value, db.outbox[b].retryOf.value;
      assert ParentOk(db, a, p) && ParentOk(db, b, q);
      OneRowPerDepth(db, p, q);
    }
  }

  /** `a` is spent and was charged fewer attempts than its descendant `b`. */
  ghost predicate Precedes(db: Db, a: nat, b: nat)
    requires a in db.outbox && b in db.outbox
  {
    a < b && Consumed(db.outbox[a]) && db.outbox[a].attempts < db.outbox[b].attempts && HasChild(db.outbox, a)
  }

  lemma {:induction false} ShallowerPrecedes(db: Db, a: nat, b: nat)
    requires WellFormed(db) && a in db.outbox && b in db.outbox
    requires Root(db, a) == Root(db, b) && Depth(db, a) <= Depth(db, b)
    ensures a == b || Precedes(db, a, b)
    decreases b
  {
    if Depth(db, a) == Depth(db, b) {
      OneRowPerDepth(db, a, b);
    } else {
      var p := db.outbox[b].retryOf.value;
      assert ParentOk(db, b, p);
      ShallowerPrecedes(db, a, p);
      assert HasChild(db.outbox, p);
    }
  }

  /** Two rows of one lineage are always parent-to-descendant: the older one is spent for good and
      has strictly fewer attempts, so lineages are chains and only the newest row can be live. */
  lemma LineageIsChain(db: Db, a: nat, b: nat)
    requires WellFormed(db) && a in db.outbox && b in db.outbox && a < b && Root(db, a) == Root(db, b)
    ensures Precedes(db, a, b)
  {
    if Depth(db, a) <= Depth(db, b) { ShallowerPrecedes(db, a, b); } else { ShallowerPrecedes(db, b, a); }
  }

  /** Of two rows of one lineage the older has failed for good and was charged strictly fewer
      attempts; so at most the newest row of a lineage is not failed. */
  ghost predicate Chained(db: Db)
    requires ParentsOk(db)
  {
    forall a, b :: a in db.outbox && b in db.outbox && a < b ==> InOrder(db, a, b)
  }

  ghost predicate InOrder(db: Db, a: nat, b: nat)
    requires ParentsOk(db) && a in db.outbox && b in db.outbox
  {
    Root(db, a) == Root(db, b) ==> db.outbox[a].status == Failed && Precedes(db, a, b)
  }

  lemma LineagesAreChains(db: Db)
    requires WellFormed(db)
    ensures Chained(db)
  {
    forall a, b | a in db.outbox && b in db.outbox && a < b ensures InOrder(db, a, b) {
      if Root(db, a) == Root(db, b) { LineageIsChain(db, a, b); }
    }
  }

  /** Lineages are unbranched chains in every reachable state. */
  lemma RunLineagesAreChains(run: Run)
    requires Legal(run) && WellFormed(Initial(run))
    ensures WellFormed(End(run)) && Chained(End(run))
  {
    WellFormedRun(run);
    LineagesAreChains(End(run));
  }

  // ----- automatic retries -----

  lemma {:induction false} RootStays(db: Db, db': Db, target: Option<nat>, id: nat)
    requires ParentsOk(db) && ParentsOk(db') && Effect(db, db', target) && id in db.outbox
    ensures Root(db', id) == Root(db, id)
    decreases id
  {
    assert RowEdge(db, db', db.outbox[id], db'.outbox[id]);
    if db.outbox[id].retryOf.Some? {
      assert ParentOk(db, id, db.outbox[id].retryOf.value);
      RootStays(db, db', target, db.outbox[id].retryOf.value);
    }
  }

  /** The step promoted a failed row automatically. */
  ghost predicate IsPromotion(db: Db, step: Step)
    requires Permitted(db, step)
  {
    step.DoAutoRetry? && step.pick.Some? && PrepareNextFailedTxRetry(db, step.pick, step.now).reply.Ok?
  }

  /** The roots of all automatic promotions of a run, each as often as it was promoted. */
  ghost function Promotions(run: Run): multiset<nat>
    requires Legal(run) && WellFormed(Initial(run))
  {
    match run
    case Start(_) => multiset{}
    case Then(before, step) =>
      WellFormedRun(before);
      if IsPromotion(End(before), step) then Promotions(before) + multiset{Root(End(before), step.pick.value)}
      else Promotions(before)
  }

  /** A promoted row has no clone; it is either requeued with one more attempt or cloned. */
  lemma PromotionOutcome(db: Db, pick: nat, now: int)
    requires pick in db.outbox && db.outbox[pick].status == Failed && db.nextId !in db.outbox
    requires PrepareNextFailedTxRetry(db, Some(pick), now).reply.Ok?
    ensures var db' := PrepareNextFailedTxRetry(db, Some(pick), now).db;
      (pick in db'.outbox && db'.outbox[pick].attempts == db.outbox[pick].attempts + 1) || HasChild(db'.outbox, pick)
  {
    var row := db.outbox[pick];
    if !(row.nonce.None? || row.failure == Some(EstimateGasRevert)) { CloneOutcome(db, pick, now); }
  }

  lemma CloneOutcome(db: Db, id: nat, now: int)
    requires id in db.outbox && db.nextId !in db.outbox && GatedClone(db, id, now, NoFailedTxRetry).reply.Ok?
    ensures HasChild(GatedClone(db, id, now, NoFailedTxRetry).db.outbox, id)
  {
    var db1 := PrepareReceiptRetryWorkflow(db, id).db;
    var db' := CloneFailedTxRetry(db1, id).db;
    assert db'.outbox[db.nextId].retryOf == Some(id);
  }

  /** Row `k` is due, and the step gives it one more attempt or a clone. */
  ghost predicate Promotes(db: Db, db': Db, target: Option<nat>, k: nat) {
    && target == Some(k) && k in db.outbox && !HasChild(db.outbox, k) && db.outbox[k].attempts < TX_AUTO_RETRY_MAX_ATTEMPTS
    && ((k in db'.outbox && db'.outbox[k].attempts == db.outbox[k].attempts + 1) || HasChild(db'.outbox, k))
  }

  lemma PromotionPromotes(db: Db, step: Step)
    requires WellFormed(db) && Permitted(db, step) && IsPromotion(db, step)
    ensures Promotes(db, Next(db, step), Target(step), step.pick.value)
  {
    assert AutoRetryDue(db, step.chain, step.signer, step.now, step.pick.value);
    PromotionOutcome(db, step.pick.value, step.now);
  }

  function Min(a: nat, b: nat): nat {
    if a < b then a else b
  }

  /** The newest row of a lineage certifies the budget of the whole lineage. */
  ghost predicate Certified(db: Db, m: multiset<nat>)
    requires ParentsOk(db)
  {
    TipsCertify(db, m) && Capped(db, m)
  }

  ghost predicate TipsCertify(db: Db, m: multiset<nat>)
    requires ParentsOk(db)
  {
    forall tip :: tip in db.outbox && !HasChild(db.outbox, tip) ==> TipCertifies(db, m, tip)
  }

  /** No lineage over budget, and only roots of stored rows counted. */
  ghost predicate Capped(db: Db, m: multiset<nat>) {
    && (forall root :: m[root] <= TX_AUTO_RETRY_MAX_ATTEMPTS)
    && (forall root :: root in m ==> root in db.outbox)
  }

  ghost predicate TipCertifies(db: Db, m: multiset<nat>, tip: nat)
    requires ParentsOk(db) && tip in db.outbox
  {
    m[Root(db, tip)] <= Min(db.outbox[tip].attempts, TX_AUTO_RETRY_MAX_ATTEMPTS)
  }

  lemma {:induction false} RootIsRow(db: Db, id: nat)
    requires ParentsOk(db) && id in db.outbox
    ensures Root(db, id) in db.outbox
    decreases id
  {
    if db.outbox[id].retryOf.Some? {
      assert ParentOk(db, id, db.outbox[id].retryOf.value);
      RootIsRow(db, db.outbox[id].retryOf.value);
    }
  }

  lemma InsertedClone(db: Db, db': Db, target: Option<nat>, tip: nat, p: nat)
    requires Effect(db, db', target)
    requires tip !in db.outbox && tip in db'.outbox && db'.outbox[tip].retryOf == Some(p) && p in db.outbox
    ensures target == Some(p) && db'.outbox[tip].attempts == db.outbox[p].attempts + 1
  {
  }

  lemma AttemptsNeverDrop(db: Db, db': Db, target: Option<nat>, id: nat)
    requires Effect(db, db', target) && id in db.outbox
    ensures db'.outbox[id].attempts >= db.outbox[id].attempts
  {
    assert RowEdge(db, db', db.outbox[id], db'.outbox[id]);
  }

  lemma ChildStays(db: Db, db': Db, target: Option<nat>, id: nat)
    requires Effect(db, db', target) && HasChild(db.outbox, id)
    ensures HasChild(db'.outbox, id)
  {
    var c :| c in db.outbox && db.outbox[c].retryOf == Some(id);
    assert RowEdge(db, db', db.outbox[c], db'.outbox[c]);
  }

  lemma OneTip(db: Db, a: nat, b: nat)
    requires WellFormed(db) && a in db.outbox && b in db.outbox && Root(db, a) == Root(db, b)
    requires !HasChild(db.outbox, a) && !HasChild(db.outbox, b)
    ensures a == b
  {
    if a < b { LineageIsChain(db, a, b); } else if b < a { LineageIsChain(db, b, a); }
  }

  /** A row that was there before the step and is still newest. */
  lemma OldTip(db: Db, db': Db, target: Option<nat>, m: multiset<nat>, tip: nat)
    requires ParentsOk(db) && ParentsOk(db') && Effect(db, db', target)
    requires tip in db.outbox && TipCertifies(db, m, tip)
    ensures TipCertifies(db', m, tip)
  {
    RootStays(db, db', target, tip);
    AttemptsNeverDrop(db, db', target, tip);
  }

  /** A promoted row that is still newest was requeued in place. */
  lemma PromotedTip(db: Db, db': Db, target: Option<nat>, m: multiset<nat>, k: nat, tip: nat)
    requires WellFormed(db) && ParentsOk(db') && Effect(db, db', target) && Promotes(db, db', target, k)
    requires tip in db.outbox && TipCertifies(db, m, tip) && !HasChild(db'.outbox, tip)
    ensures TipCertifies(db', m + multiset{Root(db, k)}, tip)
  {
    RootStays(db, db', target, tip);
    AttemptsNeverDrop(db, db', target, tip);
    if Root(db, tip) == Root(db, k) {
      if HasChild(db.outbox, tip) { ChildStays(db, db', target, tip); }
      OneTip(db, tip, k);
    }
  }

  /** A clone continues its parent's lineage with one more attempt. */
  lemma CloneTip(db: Db, db': Db, target: Option<nat>, m: multiset<nat>, tip: nat, p: nat)
    requires ParentsOk(db) && ParentsOk(db') && Effect(db, db', target)
    requires tip !in db.outbox && tip in db'.outbox && db'.outbox[tip].retryOf == Some(p) && p in db.outbox
    requires TipCertifies(db, m, p)
    ensures TipCertifies(db', m, tip)
    ensures db.outbox[p].attempts < TX_AUTO_RETRY_MAX_ATTEMPTS ==> TipCertifies(db', m + multiset{Root(db, p)}, tip)
    ensures target == Some(p)
  {
    RootStays(db, db', target, p);
    InsertedClone(db, db', target, tip, p);
  }

  lemma StepTip(db: Db, db': Db, target: Option<nat>, m: multiset<nat>, tip: nat)
    requires WellFormed(db) && WellFormed(db') && Effect(db, db', target) && Certified(db, m)
    requires tip in db'.outbox && !HasChild(db'.outbox, tip)
    ensures TipCertifies(db', m, tip)
  {
    if tip in db.outbox {
      if HasChild(db.outbox, tip) { ChildStays(db, db', target, tip); }
      OldTip(db, db', target, m, tip);
    } else if db'.outbox[tip].retryOf.Some? {
      ParentWasTip(db, db', target, tip);
      CloneTip(db, db', target, m, tip, db'.outbox[tip].retryOf.value);
    }
  }

  lemma PromotionTip(db: Db, db': Db, target: Option<nat>, m: multiset<nat>, k: nat, tip: nat)
    requires WellFormed(db) && WellFormed(db') && Effect(db, db', target) && Certified(db, m) && Promotes(db, db', target, k)
    requires tip in db'.outbox && !HasChild(db'.outbox, tip)
    ensures TipCertifies(db', m + multiset{Root(db, k)}, tip)
  {
    if tip in db.outbox {
      if HasChild(db.outbox, tip) { ChildStays(db, db', target, tip); }
      PromotedTip(db, db', target, m, k, tip);
    } else if db'.outbox[tip].retryOf.Some? {
      ParentWasTip(db, db', target, tip);
      CloneTip(db, db', target, m, tip, db'.outbox[tip].retryOf.value);
    } else {
      RootIsRow(db, k);
    }
  }

  lemma ParentWasTip(db: Db, db': Db, target: Option<nat>, tip: nat)
    requires Effect(db, db', target) && tip !in db.outbox && tip in db'.outbox && db'.outbox[tip].retryOf.Some?
    ensures db'.outbox[tip].retryOf.value in db.outbox && !HasChild(db.outbox, db'.outbox[tip].retryOf.value)
  {
  }

  lemma CertifiedStep(db: Db, db': Db, target: Option<nat>, m: multiset<nat>)
    requires WellFormed(db) && WellFormed(db') && Effect(db, db', target) && Certified(db, m)
    ensures Certified(db', m)
  {
    forall tip | tip in db'.outbox && !HasChild(db'.outbox, tip) ensures TipCertifies(db', m, tip) {
      StepTip(db, db', target, m, tip);
    }
  }

  lemma CertifiedPromotion(db: Db, db': Db, target: Option<nat>, m: multiset<nat>, k: nat)
    requires WellFormed(db) && WellFormed(db') && Effect(db, db', target) && Certified(db, m) && Promotes(db, db', target, k)
    ensures Certified(db', m + multiset{Root(db, k)})
  {
    PromotionTips(db, db', target, m, k);
    PromotionCapped(db, m, k);
    StillCapped(db, db', target, m + multiset{Root(db, k)});
  }

  lemma PromotionTips(db: Db, db': Db, target: Option<nat>, m: multiset<nat>, k: nat)
    requires WellFormed(db) && WellFormed(db') && Effect(db, db', target) && Certified(db, m) && Promotes(db, db', target, k)
    ensures TipsCertify(db', m + multiset{Root(db, k)})
  {
    forall tip | tip in db'.outbox && !HasChild(db'.outbox, tip) ensures TipCertifies(db', m + multiset{Root(db, k)}, tip) {
      PromotionTip(db, db', target, m, k, tip);
    }
  }

  lemma StillCapped(db: Db, db': Db, target: Option<nat>, m: multiset<nat>)
    requires Effect(db, db', target) && Capped(db, m)
    ensures Capped(db', m)
  {
  }

  lemma PromotionCapped(db: Db, m: multiset<nat>, k: nat)
    requires ParentsOk(db) && Certified(db, m)
    requires k in db.outbox && !HasChild(db.outbox, k) && db.outbox[k].attempts < TX_AUTO_RETRY_MAX_ATTEMPTS
    ensures Capped(db, m + multiset{Root(db, k)})
  {
    RootIsRow(db, k);
    assert TipCertifies(db, m, k);
  }

  lemma {:induction false} PromotionsCertified(run: Run)
    requires Legal(run) && WellFormed(Initial(run))
    ensures WellFormed(End(run)) && Certified(End(run), Promotions(run))
  {
    WellFormedRun(run);
    if run.Then? {
      PromotionsCertified(run.before);
      StepEffect(End(run.before), run.step);
      if IsPromotion(End(run.before), run.step) {
        PromotionPromotes(End(run.before), run.step);
        CertifiedPromotion(End(run.before), End(run), Target(run.step), Promotions(run.before), run.step.pick.value);
      } else {
        CertifiedStep(End(run.before), End(run), Target(run.step), Promotions(run.before));
      }
    }
  }

  /** However operator retries, pauses and clones interleave, a lineage is retried automatically at
      most five times. */
  lemma AtMostFiveAutomaticRetries(run: Run, root: nat)
    requires Legal(run) && WellFormed(Initial(run))
    ensures Promotions(run)[root] <= 5
  {
    PromotionsCertified(run);
  }
}
