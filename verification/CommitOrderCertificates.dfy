/** Certified positions are final: what computeSafeWatermark returns or stores bounds every
    position a later commit can publish, over every run of the protocol. */
module CommitOrderCertificates {
  import opened Options
  import opened EventTable
  import opened CommitOrder
  import opened CommitOrderSafety
  import opened CommitOrderSteps

  // ---- Write steps keep the certifier invariant ----

  lemma CertUpdate(s: State, t: nat, x: Txn)
    requires CertInv(s) && t in s.txns
    requires x.rows == s.txns[t].rows && (x.fence && !s.txns[t].fence ==> s.exclusive == None)
    ensures CertInv(Update(s, t, x))
  {
    var s' := Update(s, t, x);
    assert forall c :: c in s'.certs ==> CertOk(s, c);
  }

  lemma CertAddRow(s: State, t: nat, row: Row, phase: Phase)
    requires CertInv(s) && t in s.txns && s.txns[t].fence
    ensures CertInv(AddRow(s, t, row, phase))
  {
    var s' := AddRow(s, t, row, phase);
    assert forall c :: c in s'.certs ==> CertOk(s, c);
  }

  lemma CertCommit(s: State, t: nat)
    requires CertInv(s) && PositionInv(s) && t in s.txns
    ensures CertInv(DoCommit(s, t))
  {
    var s' := DoCommit(s, t);
    assert forall c :: c in s'.certs ==> CertOk(s, c);
    if s.exclusive.Some? {
      assert View(s, t) == s.committed;
    }
  }

  lemma CertRollback(s: State, t: nat)
    requires CertInv(s) && t in s.txns
    ensures CertInv(Leave(s, t))
  {
    var s' := Leave(s, t);
    assert forall c :: c in s'.certs ==> CertOk(s, c);
  }

  lemma CertBegun(s: State)
    requires CertInv(s)
    ensures CertInv(Begun(s))
  {
    var s' := Begun(s);
    assert forall c :: c in s'.certs ==> CertOk(s, c);
  }

  lemma WriteKeepsCert(h: Hash, s: State, t: nat, w: WriteStep)
    requires StoreInv(h, s) && CertInv(s) && t in s.txns && WriteEnabled(h, s, t, w)
    ensures CertInv(ApplyWrite(h, s, t, w))
  {
    hide CertInv, TxnOk, Ledger, AllNumbered, Quietly, Clashes;
    if w.InsertRow? {
      var p := s.txns[t].phase;
      InsertNeverClashes(h, s, t, t);
      CertAddRow(s, t, NextRow(t, p), Inserting(p.call, p.from, p.positions + [s.counter + 1]));
    } else if w.Commit? {
      CertCommit(s, t);
    } else if w.Rollback? {
      CertRollback(s, t);
    } else {
      QuietShape(h, s, t, w);
      CertUpdate(s, t, Quietly(h, s, t, w));
    }
  }

  // ---- Certifier steps ----

  /** Certifier steps touch nothing a writer uses. */
  lemma CertKeepsStore(h: Hash, s: State, s': State)
    requires StoreInv(h, s) && AccountInv(s)
    requires s'.(watermark := s.watermark, reader := s.reader, exclusive := s.exclusive,
                 certs := s.certs, returned := s.returned) == s
    ensures StoreInv(h, s') && AccountInv(s')
  {
    hide TxnOk, Ledger, AllNumbered, Owed, Accounted;
  }

  /** While the fence is held exclusively nothing is uncommitted... */
  lemma NothingUncommitted(s: State)
    requires CertInv(s) && PositionInv(s) && s.exclusive.Some?
    ensures forall t :: t in s.txns ==> s.txns[t].rows == map[]
  {
    forall t | t in s.txns ensures s.txns[t].rows == map[] {
      var x := s.txns[t];
      assert forall p :: p in x.rows ==> x.fence;
    }
  }

  /** ...so the MAX read under it is final. */
  lemma SetSequenceKeepsCert(s: State, c: nat)
    requires CertInv(s) && PositionInv(s) && c in s.certs && CertEnabled(s, c, SetSequence)
    ensures CertInv(DoCertSet(s, c))
  {
    assert CertOk(s, c);
    MaxPositionIsMax(s.committed, s.counter);
    var s' := DoCertSet(s, c);
    forall d | d in s'.certs ensures CertOk(s', d) {
      assert CertOk(s, d);
    }
    if s.certs[c].ReadMax? {
      NothingUncommitted(s);
    }
  }

  lemma LeavingKeepsCert(s: State, c: nat, returned: seq<nat>)
    requires CertInv(s) && c in s.certs
    requires returned == s.returned || (s.certs[c].Ready? && returned == s.returned + [s.certs[c].safe])
    ensures CertInv(CertLeave(s, c).(returned := returned))
  {
    assert CertOk(s, c);
    var s' := CertLeave(s, c).(returned := returned);
    forall d | d in s'.certs ensures CertOk(s', d) {
      assert CertOk(s, d);
    }
  }

  lemma AdvancingKeepsCert(s: State, c: nat, k: CertStep)
    requires CertInv(s) && c in s.certs && CertEnabled(s, c, k)
    requires !k.SetSequence? && !k.Finish? && !k.Abort?
    ensures CertInv(ApplyCert(s, c, k))
  {
    assert CertOk(s, c);
    var s' := ApplyCert(s, c, k);
    forall d | d in s'.certs ensures CertOk(s', d) {
      if d in s.certs {
        assert CertOk(s, d);
      }
    }
  }

  lemma CertStepKeepsCert(s: State, c: nat, k: CertStep)
    requires CertInv(s) && PositionInv(s) && c in s.certs && CertEnabled(s, c, k)
    ensures CertInv(ApplyCert(s, c, k))
  {
    hide CertInv, PositionInv, DoCertSet;
    if k.SetSequence? {
      SetSequenceKeepsCert(s, c);
    } else if k.Finish? {
      LeavingKeepsCert(s, c, s.returned + [s.certs[c].safe]);
    } else if k.Abort? {
      LeavingKeepsCert(s, c, s.returned);
    } else {
      AdvancingKeepsCert(s, c, k);
    }
  }

  /** A certifier step as a whole. */
  lemma CertifyKeepsInv(h: Hash, s: State, c: nat, k: CertStep)
    requires Inv(h, s) && c in s.certs && CertEnabled(s, c, k)
    ensures Inv(h, ApplyCert(s, c, k))
  {
    hide StoreInv, CertInv, AccountInv, DoCertSet;
    Positions(h, s);
    CertStepKeepsCert(s, c, k);
    if k.SetSequence? {
      SettingKeepsStore(h, s, c);
    } else {
      CertKeepsStore(h, s, ApplyCert(s, c, k));
    }
  }

  lemma Positions(h: Hash, s: State)
    requires StoreInv(h, s)
    ensures PositionInv(s)
  {
  }

  lemma SettingKeepsStore(h: Hash, s: State, c: nat)
    requires StoreInv(h, s) && AccountInv(s) && c in s.certs && (s.certs[c].ReadMax? || s.certs[c].ReadCached?)
    ensures StoreInv(h, DoCertSet(s, c)) && AccountInv(DoCertSet(s, c))
  {
    hide StoreInv, AccountInv;
    CertKeepsStore(h, s, DoCertSet(s, c));
  }

  lemma OpeningKeepsInv(h: Hash, s: State, c: nat)
    requires Inv(h, s) && c !in s.certs
    ensures Inv(h, s.(certs := s.certs[c := Waiting]))
  {
    hide StoreInv, AccountInv;
    var s' := s.(certs := s.certs[c := Waiting]);
    CertKeepsStore(h, s, s');
    forall d | d in s'.certs ensures CertOk(s', d) {
      if d in s.certs {
        assert CertOk(s, d);
      }
    }
  }
}
