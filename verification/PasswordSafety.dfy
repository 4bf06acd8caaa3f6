/** Where the password of a new connection secret comes from. */
module PasswordSafety {
  import opened Conditions
  import opened ConnectionUrl
  import opened Text
  import opened Model
  import opened Machine
  import opened MachineFacts
  import opened Frames
  import opened System
  import opened Invariants

  /** What a random byte stands for: 26 small letters, 26 capital letters, 10 digits and three marks, over and over. */
  predicate StandsFor(b: Byte, c: char) {
    var d := b % 65;
    && (d < 26 ==> c as int == 'a' as int + d)
    && (26 <= d < 52 ==> c as int == 'A' as int + d - 26)
    && (52 <= d < 62 ==> c as int == '0' as int + d - 52)
    && (d == 62 ==> c == '-') && (d == 63 ==> c == '_') && (d == 64 ==> c == '~')
  }

  /** The password is spelled by 32 random bytes, character by character. */
  predicate Spells(o: Observation, password: string) {
    && o.call == ReadRandom && o.response.Bytes? && |o.response.bytes| == 32 && |password| == 32
    && forall i | 0 <= i < 32 :: StandsFor(o.response.bytes[i], password[i])
  }

  ghost predicate Drawn(trace: seq<Observation>, password: string) { exists o | o in trace :: Spells(o, password) }

  ghost predicate StoresDrawn(o: Observation, trace: seq<Observation>) {
    o.call.CreateSecret? ==> "password" in o.call.data && Drawn(trace, o.call.data["password"])
  }

  /** A password that is about to be stored, or has been, was drawn by this pass. */
  ghost predicate PasswordOk(p: Pass) {
    && (p.pc.OwnSecret? || p.pc.WriteSecret? ==> Drawn(p.trace, p.secretPassword))
    && forall o | o in p.trace :: StoresDrawn(o, p.trace)
  }

  // ---------------------------------------------------------------- one call

  lemma DrawnLasts(trace: seq<Observation>, o: Observation, password: string)
    requires Drawn(trace, password)
    ensures Drawn(trace + [o], password)
  {
    hide Spells;
    var earlier :| earlier in trace && Spells(earlier, password);
    assert earlier in trace + [o];
  }

  lemma BytesSpell(bytes: seq<Byte>)
    requires |bytes| == 32
    ensures Spells(Observation(ReadRandom, Bytes(bytes)), PasswordFrom(bytes))
  {
    CharsetIsUnreserved();
    hide StandsFor, CHARSET;
    forall i | 0 <= i < 32
      ensures StandsFor(bytes[i], PasswordFrom(bytes)[i])
    {
      ByteStandsFor(bytes[i]);
    }
  }

  lemma LettersInOrder()
    ensures forall d | 0 <= d < 26 :: LOWER[d] as int == 'a' as int + d
    ensures forall d | 0 <= d < 26 :: UPPER[d] as int == 'A' as int + d
    ensures forall d | 0 <= d < 10 :: OTHERS[d] as int == '0' as int + d
    ensures OTHERS[10..] == "-_~"
  {
  }

  lemma ByteStandsFor(b: Byte)
    ensures |CHARSET| == 65 && StandsFor(b, CHARSET[b % 65])
  {
    LowerIsUnreserved();
    UpperIsUnreserved();
    OthersAreUnreserved();
    LettersInOrder();
    hide LOWER, UPPER, OTHERS;
    var d := b % 65;
    if d < 26 {
      assert CHARSET[d] == LOWER[d];
    } else if d < 52 {
      assert CHARSET[d] == UPPER[d - 26];
    } else if d < 62 {
      assert CHARSET[d] == OTHERS[d - 52];
    } else {
      assert CHARSET[d] == OTHERS[d - 52] == OTHERS[10..][d - 62];
    }
  }

  lemma DrawsEnough(w: World, k: Key, b: Beat)
    ensures var r := Api(w, k, ReadRandom, b).1; r.Bytes? ==> |r.bytes| == 32
  {
  }

  /** Which places a pass can come from on its way to the new secret. */
  lemma ComesToSecret(p: Pass, r: Response, b: Beat)
    ensures var q := Resume(p, r, b);
            && (q.pc.OwnSecret? ==> p.pc.DrawPassword? && r.Bytes? && q.secretPassword == PasswordFrom(r.bytes))
            && (q.pc.WriteSecret? ==> p.pc.OwnSecret? && q.secretPassword == p.secretPassword)
  {
    ResumeCases(p, r, b);
    hide Resume, ResumeFront, ResumeSql, ResumeRepair, ResumeEnd, StatusStep, SameObject, FailWith, SetCondition;
    hide PasswordFrom, IsTrue;
    if p.pc.ReadResource? || p.pc.AddFinalizer? {
      FrontAside(p, r, b);
    } else if p.pc.ReadCluster? {
      ReadClusterFacts(p, r, b);
    } else if p.pc.ReadCredential? {
      ReadCredentialFacts(p, r, b);
    } else if InSql(p.pc) {
      SqlFacts(p, r, b);
    } else if InRepair(p.pc) {
      RepairFacts(p, r, b);
    } else if Middle(p.pc) {
      MiddleAside(p, r, b);
    } else {
      EndAside(p, r, b);
    }
  }

  lemma FrontAside(p: Pass, r: Response, b: Beat)
    requires p.pc.ReadResource? || p.pc.AddFinalizer?
    ensures var q := ResumeFront(p, r, b); !q.pc.OwnSecret? && !q.pc.WriteSecret?
  {
    hide Resolve, Accept;
  }

  lemma MiddleAside(p: Pass, r: Response, b: Beat)
    requires Middle(p.pc)
    ensures var q := ResumeSecret(p, r, b);
            && (q.pc.OwnSecret? ==> p.pc.DrawPassword? && r.Bytes? && q.secretPassword == PasswordFrom(r.bytes))
            && (q.pc.WriteSecret? ==> p.pc.OwnSecret? && q.secretPassword == p.secretPassword)
  {
    hide UpdatePhase, SetCondition, PasswordFrom;
  }

  lemma EndAside(p: Pass, r: Response, b: Beat)
    requires !Front(p.pc) && !Middle(p.pc) && !InSql(p.pc) && !InRepair(p.pc)
    ensures var q := ResumeEnd(p, r, b); !q.pc.OwnSecret? && !q.pc.WriteSecret?
  {
  }

  lemma CreatesOwn(p: Pass)
    requires NextCall(p).CreateSecret?
    ensures p.pc.WriteSecret? && "password" in NextCall(p).data && NextCall(p).data["password"] == p.secretPassword
  {
    hide DbName, RoleName, SecretKeyOf, Url, PrintInt;
  }

  lemma StepPassword(w: World, p: Pass, b: Beat)
    requires PasswordOk(p) && !p.pc.Stopped?
    ensures PasswordOk(Step(w, p, b).1)
  {
    var r := Api(w, p.key, NextCall(p), b).1;
    var q := Step(w, p, b).1;
    var o := Observation(NextCall(p), r);
    assert p.pc.DrawPassword? ==> NextCall(p) == ReadRandom;
    ComesToSecret(p, r, b);
    DrawsEnough(w, p.key, b);
    hide Resume, Spells, Api, NextCall, PasswordFrom;
    if q.pc.OwnSecret? {
      BytesSpell(r.bytes);
      assert o in q.trace;
    }
    if q.pc.WriteSecret? {
      DrawnLasts(p.trace, o, p.secretPassword);
    }
    forall earlier | earlier in q.trace
      ensures StoresDrawn(earlier, q.trace)
    {
      if earlier.call.CreateSecret? {
        if earlier !in p.trace {
          CreatesOwn(p);
        }
        DrawnLasts(p.trace, o, earlier.call.data["password"]);
      }
    }
  }

  // ---------------------------------------------------------------- whole runs

  lemma StartsPassword(k: Key)
    ensures PasswordOk(InitialPass(k))
  {
  }

  lemma NextPassword(s: Sys, e: Event)
    requires forall k | k in s.passes :: PasswordOk(s.passes[k])
    ensures forall k | k in Next(s, e).passes :: PasswordOk(Next(s, e).passes[k])
  {
    hide PasswordOk, Step, MoveWorld;
    match e {
      case Turn(k, b) =>
        if Running(s, k) {
          StepPassword(s.w, s.passes[k], b);
        }
      case Start(k) => StartsPassword(k);
      case _ =>
    }
  }

  lemma {:induction false} RunPassword(s: Sys, events: seq<Event>)
    requires forall k | k in s.passes :: PasswordOk(s.passes[k])
    ensures forall k | k in Run(s, events).passes :: PasswordOk(Run(s, events).passes[k])
    decreases |events|
  {
    hide PasswordOk, Next;
    if events != [] {
      NextPassword(s, events[0]);
      RunPassword(Next(s, events[0]), events[1..]);
    }
  }

  /**
   * Over every run: the password of every connection secret that a pass creates is spelled, character by character, by
   * 32 random bytes that this pass has drawn.
   */
  lemma PasswordIsDrawn(s: Sys, events: seq<Event>, k: Key, i: nat)
    requires Initial(s) && k in Run(s, events).passes
    requires i < |Run(s, events).passes[k].trace| && Run(s, events).passes[k].trace[i].call.CreateSecret?
    ensures var trace := Run(s, events).passes[k].trace;
            "password" in trace[i].call.data && Drawn(trace, trace[i].call.data["password"])
  {
    RunPassword(s, events);
    hide Run, Drawn;
    assert PasswordOk(Run(s, events).passes[k]);
    assert StoresDrawn(Run(s, events).passes[k].trace[i], Run(s, events).passes[k].trace);
  }
}
