/** The example runs exchange text: the stale messages that ruin a download are messages a peer parses,
    and a resumed download completes over text. */
module DccTextExamples {
  import opened DccTypes
  import opened DccNames
  import opened DccManager
  import opened DccNet
  import opened DccAgreement
  import opened DccProtocol
  import opened DccProtocolLaws
  import opened DccWire
  import opened DccResume
  import opened DccTextRuns
  import opened DccExample
  import Stale = DccStaleResume
  import Answer = DccStaleAnswer
  import Good = DccGoodResume

  /** The examples know one textual address. */
  function OneText(): Texts {
    s => s == "a"
  }

  lemma TextPlain()
    ensures PlainTexts(OneText()) && ParseAddress(OneText(), "a").Ok?
  {
    assert TrimBrackets("a") == "a";
  }

  lemma DrawBare(letter: char, x: string)
    requires Bare([letter])
    ensures Bare(Draw(letter, x)) && Draw(letter, x) != ""
  {
    assert [letter][0] == letter;
  }

  lemma OutcomesSound(letter: char)
    requires Bare([letter])
    ensures SoundEnv(OneText(), Outcomes(letter))
  {
    TextPlain();
    hide ParseAddress;
    forall x ensures SoundBegin(OneText(), Outcomes(letter)(x)) {
      DrawBare(letter, x);
    }
  }

  lemma LateSound()
    ensures SoundEnv(OneText(), LateOutcomes())
  {
    TextPlain();
    hide ParseAddress;
    forall x ensures SoundBegin(OneText(), LateOutcomes()(x)) {
      DrawBare('v', x);
    }
  }

  lemma WorldSound()
    ensures SoundEnv(OneText(), Outcomes('t')) && SoundEnv(OneText(), Outcomes('u')) && SoundEnv(OneText(), Outcomes('v')) && SoundEnv(OneText(), LateOutcomes())
    ensures SoundReceive(OneText(), RECEIVES) && SoundReceive(OneText(), RECEIVES.(partialExists := false))
  {
    OutcomesSound('t');
    OutcomesSound('u');
    OutcomesSound('v');
    LateSound();
    TextPlain();
    hide SoundEnv, ParseAddress;
  }

  lemma StepsSound()
    ensures SoundStep(OneText(), QUEUES) && SoundStep(OneText(), WITHDRAWS) && SoundStep(OneText(), REPEATS)
    ensures SoundStep(OneText(), OFFERED) && SoundStep(OneText(), AGREED) && SoundStep(OneText(), ASKED)
    ensures SoundStep(OneText(), TAKES_K) && SoundStep(OneText(), TAKES_I)
    ensures SoundStep(OneText(), Answer.TURNS_CLASSIC) && SoundStep(OneText(), Answer.TAKES_NOTHING) && SoundStep(OneText(), Answer.LATE)
    ensures SoundStep(OneText(), ReceiveDone("k", Outcomes('v')))
  {
    WorldSound();
    hide SoundEnv, SoundReceive;
  }

  lemma SoundFirst(step: Step, rest: seq<Step>)
    requires SoundStep(OneText(), step) && SoundRun(OneText(), rest)
    ensures SoundRun(OneText(), [step] + rest)
  {
    hide SoundStep;
  }

  lemma SafeF()
    ensures SafeFilename("f")
  {
    assert "f"[0] == 'f' && "."[0] == '.' && |"f"| != |".."|;
    assert forall k :: 0 <= k < |"f"| ==> "f"[k] == 'f';
  }

  /** The run of module DccStaleResume, over text. */
  lemma StaleResumeOverText()
    ensures Starts(SRC, Stale.Still(S0, Stale.R0, 0, 0), [], Stale.RECORDS)
    ensures PossibleTextRun(OneText(), SRC, NAMES, Stale.Still(S0, Stale.R0, 0, 0), Stale.STEPS)
    ensures var m := TextRun(OneText(), SRC, NAMES, Stale.Still(S0, Stale.R0, 0, 0), Stale.STEPS);
            && "k" in m.receiver.items && m.receiver.items["k"].status == Completed
            && "k" in m.files && m.files["k"] != SRC["f"]
  {
    var n := Stale.Still(S0, Stale.R0, 0, 0);
    Stale.StaleResumeRuinsDownload();
    StaleSound();
    SafeF();
    assert SoundRecords(Stale.RECORDS) && SoundRecords([]);
    TextPlain();
    hide Starts, SoundRecords, Run, PossibleRun, TextRun, PossibleTextRun, SoundRun, PlainTexts, BothSound;
    StartsSound(OneText(), SRC, n, [], Stale.RECORDS);
    SameRun(OneText(), SRC, NAMES, n, Stale.STEPS);
  }

  lemma StaleSound()
    ensures SoundRun(OneText(), Stale.STEPS)
  {
    StepsSound();
    assert SoundStep(OneText(), Connect("o", "k")) && SoundStep(OneText(), SendChunk("o", 2)) && SoundStep(OneText(), ReceiveChunk("k", 1));
    assert SoundRun(OneText(), []);
    hide SoundRun, SoundStep;
    var done := ReceiveDone("k", Outcomes('v'));
    SoundFirst(done, []);
    SoundFirst(ReceiveChunk("k", 1), [done] + []);
    SoundFirst(SendChunk("o", 2), [ReceiveChunk("k", 1)] + ([done] + []));
    SoundFirst(Connect("o", "k"), [SendChunk("o", 2)] + ([ReceiveChunk("k", 1)] + ([done] + [])));
    SoundFirst(ASKED, Stale.ENDING);
    SoundFirst(AGREED, [ASKED] + Stale.ENDING);
    SoundFirst(ASKED, [AGREED] + ([ASKED] + Stale.ENDING));
    SoundFirst(ASKED, [ASKED] + ([AGREED] + ([ASKED] + Stale.ENDING)));
    SoundFirst(TAKES_I, [ASKED] + ([ASKED] + ([AGREED] + ([ASKED] + Stale.ENDING))));
    SoundFirst(TAKES_K, [TAKES_I] + ([ASKED] + ([ASKED] + ([AGREED] + ([ASKED] + Stale.ENDING)))));
    SoundFirst(OFFERED, Stale.NEGOTIATION);
    SoundFirst(REPEATS, [OFFERED] + Stale.NEGOTIATION);
    SoundFirst(WITHDRAWS, [REPEATS] + ([OFFERED] + Stale.NEGOTIATION));
    SoundFirst(OFFERED, [WITHDRAWS] + ([REPEATS] + ([OFFERED] + Stale.NEGOTIATION)));
    SoundFirst(QUEUES, [OFFERED] + ([WITHDRAWS] + ([REPEATS] + ([OFFERED] + Stale.NEGOTIATION))));
  }

  /** The run of module DccStaleAnswer, over text. */
  lemma StaleAnswerOverText()
    ensures Starts(SRC, Answer.Calm(S0, Answer.R0, 0, 0), [], Stale.RECORDS)
    ensures PossibleTextRun(OneText(), SRC, NAMES, Answer.Calm(S0, Answer.R0, 0, 0), Answer.STEPS)
    ensures var m := TextRun(OneText(), SRC, NAMES, Answer.Calm(S0, Answer.R0, 0, 0), Answer.STEPS);
            && "i" in m.receiver.items && m.receiver.items["i"].filename == "f" && "i" in m.files
            && !PrefixOf(m.files["i"], SRC["f"])
  {
    var n := Answer.Calm(S0, Answer.R0, 0, 0);
    Answer.StaleAnswerRuinsDownload();
    AnswerSound();
    SafeF();
    assert SoundRecords(Stale.RECORDS) && SoundRecords([]);
    TextPlain();
    hide Starts, SoundRecords, Run, PossibleRun, TextRun, PossibleTextRun, SoundRun, PlainTexts, BothSound, PrefixOf;
    StartsSound(OneText(), SRC, n, [], Stale.RECORDS);
    SameRun(OneText(), SRC, NAMES, n, Answer.STEPS);
  }

  lemma AnswerSound()
    ensures SoundRun(OneText(), Answer.STEPS)
  {
    StepsSound();
    assert SoundStep(OneText(), Connect("o", "i")) && SoundStep(OneText(), SendChunk("o", 1)) && SoundStep(OneText(), ReceiveChunk("i", 1));
    assert SoundRun(OneText(), []);
    hide SoundRun, SoundStep;
    var soak, pour := ReceiveChunk("i", 1), SendChunk("o", 1);
    SoundFirst(soak, []);
    SoundFirst(pour, [soak] + []);
    SoundFirst(Connect("o", "i"), [pour] + ([soak] + []));
    SoundFirst(Answer.LATE, [Connect("o", "i")] + ([pour] + ([soak] + [])));
    SoundFirst(Answer.LATE, [Answer.LATE] + ([Connect("o", "i")] + ([pour] + ([soak] + []))));
    SoundFirst(Answer.TAKES_NOTHING, Answer.LAST);
    SoundFirst(TAKES_K, [Answer.TAKES_NOTHING] + Answer.LAST);
    SoundFirst(OFFERED, Answer.TAKING_BOTH);
    SoundFirst(REPEATS, [OFFERED] + Answer.TAKING_BOTH);
    SoundFirst(Answer.TURNS_CLASSIC, [REPEATS] + ([OFFERED] + Answer.TAKING_BOTH));
    SoundFirst(WITHDRAWS, Answer.REPETITION);
    SoundFirst(OFFERED, [WITHDRAWS] + Answer.REPETITION);
    SoundFirst(QUEUES, [OFFERED] + ([WITHDRAWS] + Answer.REPETITION));
  }

  /** The run of module DccGoodResume, over text: a timely run in which a resumed download completes. */
  lemma GoodResumeOverText()
    ensures Starts(SRC, Good.Still(S0, Good.R0, 0, 0), [], Good.RECORDS) && SoundRecords([]) && SoundRecords(Good.RECORDS)
    ensures PlainTexts(OneText()) && SoundRun(OneText(), Good.STEPS)
    ensures PossibleTextRun(OneText(), SRC, NAMES, Good.Still(S0, Good.R0, 0, 0), Good.STEPS)
    ensures TimelyTextRun(OneText(), SRC, NAMES, Good.Still(S0, Good.R0, 0, 0), Good.STEPS)
    ensures var m := TextRun(OneText(), SRC, NAMES, Good.Still(S0, Good.R0, 0, 0), Good.STEPS);
            && "k" in m.receiver.items && m.receiver.items["k"].status == Completed
            && "k" in m.files && m.files["k"] == SRC["f"]
  {
    var n := Good.Still(S0, Good.R0, 0, 0);
    Good.TimelyResumeCompletes();
    GoodSound();
    SafeF();
    assert SoundRecords(Good.RECORDS) && SoundRecords([]);
    TextPlain();
    hide Starts, SoundRecords, Run, PossibleRun, TimelyRun, TextRun, PossibleTextRun, TimelyTextRun, SoundRun, PlainTexts, BothSound;
    StartsSound(OneText(), SRC, n, [], Good.RECORDS);
    SameRun(OneText(), SRC, NAMES, n, Good.STEPS);
  }

  lemma GoodSound()
    ensures SoundRun(OneText(), Good.STEPS)
  {
    StepsSound();
    assert SoundStep(OneText(), Connect("o", "k")) && SoundStep(OneText(), SendChunk("o", 1)) && SoundStep(OneText(), ReceiveChunk("k", 1));
    assert SoundRun(OneText(), []);
    hide SoundRun, SoundStep;
    var done := ReceiveDone("k", Outcomes('v'));
    SoundFirst(done, []);
    SoundFirst(ReceiveChunk("k", 1), [done] + []);
    SoundFirst(SendChunk("o", 1), [ReceiveChunk("k", 1)] + ([done] + []));
    SoundFirst(Connect("o", "k"), [SendChunk("o", 1)] + ([ReceiveChunk("k", 1)] + ([done] + [])));
    SoundFirst(ASKED, Good.MOVES);
    SoundFirst(AGREED, [ASKED] + Good.MOVES);
    SoundFirst(ASKED, [AGREED] + ([ASKED] + Good.MOVES));
    SoundFirst(TAKES_K, [ASKED] + ([AGREED] + ([ASKED] + Good.MOVES)));
    SoundFirst(OFFERED, [TAKES_K] + ([ASKED] + ([AGREED] + ([ASKED] + Good.MOVES))));
    SoundFirst(QUEUES, [OFFERED] + ([TAKES_K] + ([ASKED] + ([AGREED] + ([ASKED] + Good.MOVES)))));
  }
}
