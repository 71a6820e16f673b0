/** What startup makes of a segment, from its bytes alone: which segments it
    accepts and what it reads in each line, without parsing or replaying them. */
module Reading {
  import opened Types
  import opened Lines
  import opened Json
  import opened Records
  import opened Shapes
  import opened Lifecycle
  import opened History
  import opened Recovery
  import Grammar

  /** The line is the text of a record with these facts; its size counts the
      newline, and it claims an effect if the record says so. */
  ghost predicate LineSays(tx: Text, line: Line, rec: Rec) {
    match tx.load(line)
    case None => false
    case Some(j) =>
      && Shape(j, rec.s) && rec.size == |line| + 1
      && (rec.claim <==> Get(j.members, EffectIssued) == Some(Bool(true)))
  }

  lemma DecodeExact(tx: Text, line: Line, rec: Rec)
    ensures Decode(tx, line) == Some(rec) <==> LineSays(tx, line, rec)
  {
    hide ParseStored, Shape;
    if tx.load(line).Some? {
      StoredExact(tx.load(line).value, rec.s);
      ShapeIsObject(tx.load(line).value, rec.s);
    }
  }

  lemma ShapeIsObject(j: Json, s: Stored)
    ensures Shape(j, s) ==> j.Obj?
  {
  }

  function NonEmpty(lines: seq<Line>): seq<Line> {
    if lines == [] then []
    else
      var l := lines[|lines| - 1];
      NonEmpty(lines[..|lines| - 1]) + (if l == [] then [] else [l])
  }

  ghost predicate LinesSay(tx: Text, lines: seq<Line>, log: seq<Rec>) {
    |log| == |lines| && forall i :: 0 <= i < |lines| ==> LineSays(tx, lines[i], log[i])
  }

  lemma LinesSaySnoc(tx: Text, lines: seq<Line>, l: Line, log: seq<Rec>)
    ensures LinesSay(tx, lines + [l], log) <==>
            log != [] && LinesSay(tx, lines, log[..|log| - 1]) && LineSays(tx, l, log[|log| - 1])
  {
    hide LineSays;
    var all := lines + [l];
    if log != [] && LinesSay(tx, lines, log[..|log| - 1]) && LineSays(tx, l, log[|log| - 1]) {
      forall i | 0 <= i < |all| ensures LineSays(tx, all[i], log[i]) {
        if i < |lines| { assert all[i] == lines[i] && log[i] == log[..|log| - 1][i]; }
      }
    }
    if LinesSay(tx, all, log) {
      forall i | 0 <= i < |lines| ensures LineSays(tx, lines[i], log[..|log| - 1][i]) { assert all[i] == lines[i]; }
    }
  }

  lemma {:induction false} LinesExact(tx: Text, lines: seq<Line>, log: seq<Rec>)
    ensures RecoverLines(tx, lines) == Ok(log) <==> LinesSay(tx, NonEmpty(lines), log) && Replay(Facts(log)).Ok?
    decreases |lines|, 1
  {
    if lines == [] {
      assert Facts([]) == [];
    } else {
      var v, l := lines[..|lines| - 1], lines[|lines| - 1];
      assert lines == v + [l];
      if l == [] {
        LinesExact(tx, v, log);
        assert NonEmpty(lines) == NonEmpty(v);
      } else {
        LineExact(tx, v, l, log);
      }
    }
  }

  lemma {:induction false} LineExact(tx: Text, v: seq<Line>, l: Line, log: seq<Rec>)
    requires l != []
    ensures RecoverLines(tx, v + [l]) == Ok(log) <==>
            LinesSay(tx, NonEmpty(v + [l]), log) && Replay(Facts(log)).Ok?
    decreases |v| + 1, 0
  {
    assert (v + [l])[..|v|] == v;
    assert NonEmpty(v + [l]) == NonEmpty(v) + [l];
    hide Decode, LineSays, LinesSay, Apply, Facts, NonEmpty;
    LinesSaySnoc(tx, NonEmpty(v), l, log);
    if log == [] {
      AcceptGrows(tx, v, l, log);
    } else {
      var h, rec := log[..|log| - 1], log[|log| - 1];
      assert log == h + [rec];
      LinesExact(tx, v, h);
      DecodeExact(tx, l, rec);
      FactsSnoc(h, rec);
      ReplaySnoc(Facts(h), rec.s);
      AcceptGrows(tx, v, l, log);
    }
  }

  lemma AcceptGrows(tx: Text, v: seq<Line>, l: Line, log: seq<Rec>)
    requires l != []
    ensures RecoverLines(tx, v + [l]) == Ok(log) <==>
            && log != [] && RecoverLines(tx, v) == Ok(log[..|log| - 1]) && Decode(tx, l) == Some(log[|log| - 1])
            && Apply(Replay(Facts(log[..|log| - 1])).value, log[|log| - 1].s).Ok?
  {
    hide Decode, Apply;
    assert (v + [l])[..|v|] == v;
    var r := RecoverLines(tx, v);
    if r.Ok? {
      RecoverSnoc(tx, v, l);
      if Decode(tx, l).Some? {
        var grown := r.value + [Decode(tx, l).value];
        assert grown[..|grown| - 1] == r.value;
      }
      if log != [] { assert log == log[..|log| - 1] + [log[|log| - 1]]; }
    }
  }

  /** The segment is at most one gibibyte, its complete lines that are not empty
      are the texts of these records, each correlation id's records lie in the
      grammar and no receipt is installed while another open intent holds its
      verifier. */
  ghost predicate Recoverable(tx: Text, sink: seq<Byte>, log: seq<Rec>) {
    && |sink| <= 0x4000_0000 && LinesSay(tx, NonEmpty(Scan(sink).lines), log)
    && Grammar.EveryCidInGrammar(Facts(log)) && Grammar.NoClash(Facts(log))
  }

  /** Startup succeeds with these records if and only if they are recoverable. */
  lemma StartupExact(tx: Text, sink: seq<Byte>, log: seq<Rec>)
    ensures Recover(tx, sink) == Ok(log) <==> Recoverable(tx, sink, log)
  {
    hide RecoverLines, LinesSay, Scan, NonEmpty, Facts, Replay;
    LinesExact(tx, Scan(sink).lines, log);
    Grammar.ReplayAcceptsGrammar(Facts(log));
  }

  ghost predicate Startable(tx: Text, sink: seq<Byte>) { exists log :: Recoverable(tx, sink, log) }

  lemma StartableExact(tx: Text, sink: seq<Byte>)
    ensures Recover(tx, sink).Ok? <==> Startable(tx, sink)
    ensures forall log :: Recoverable(tx, sink, log) <==> Recover(tx, sink) == Ok(log)
  {
    hide Recover, Recoverable;
    forall log ensures Recover(tx, sink) == Ok(log) <==> Recoverable(tx, sink, log) { StartupExact(tx, sink, log); }
    if Recover(tx, sink).Ok? { assert Recoverable(tx, sink, Recover(tx, sink).value); }
  }
}
