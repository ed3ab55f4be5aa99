/**
 * The censor: a room's private moderation cell. It holds a denylist of exact
 * words and a per-user warning counter. On a CENSOR request it answers whether
 * the message may be said; a refused message costs its sender one warning and
 * earns them a private SAYS_TO notice.
 *
 * CensorStep is the specification of one event; the class Censor is the cell's
 * behaviour, updating its warnings map in place, proved against CensorStep.
 */
module Services {
  import opened Mesh
  import opened Tokens

  /** A message may be said when none of its space-separated pieces is a denied word. */
  predicate Accepts(words: set<string>, message: string)
  {
    forall t :: t in Split(message) ==> t !in words
  }

  /** A user's warning count; a user never warned reads 0, as a missing key of a Go map does. */
  function Warnings(m: map<CellId, nat>, u: CellId): nat
  {
    if u in m then m[u] else 0
  }

  function WarningText(n: nat): string
  {
    "You can't say that! You've been warned " + Decimal(n) + " times."
  }

  /** The private notice the censor sends to a user it refused. */
  function Notice(censor: CellId, user: CellId, n: nat): Payload
  {
    map["message" := Text(WarningText(n)), "from" := Ref(censor), "to" := Ref(user)]
  }

  datatype CensorState = CensorState(id: CellId, words: set<string>, warnings: map<CellId, nat>)

  /** One event handled by the censor. Only CENSOR is handled. The message is read
      first (a missing or non-text message panics); a refused message then needs an
      identifier sender to charge (otherwise it panics before anything changes); the
      answer is given; then a sender that is not an identifier panics, a sender
      without an entry gets a zero entry, and a refusal sends the notice carrying
      the new count. */
  function CensorStep(s: CensorState, topic: Topic, p: Payload): (r: Step<CensorState>)
    ensures r.next.id == s.id && r.next.words == s.words
  {
    if !topic.Censor? then Step(Quiet, s)
    else match TextAt(p, "message")
      case None => Step(Failure(BadPayload("message")), s)
      case Some(m) =>
        if !Accepts(s.words, m) then
          match IdAt(p, "from")
          case None => Step(Failure(BadPayload("from")), s)
          case Some(u) =>
            var n := Warnings(s.warnings, u) + 1;
            Step(Outcome(Some(Flag(false)), [ToSubscribers(SaysTo, Notice(s.id, u, n))], [], None),
                 s.(warnings := s.warnings[u := n]))
        else
          match IdAt(p, "from")
          case None => Step(Outcome(Some(Flag(true)), [], [], Some(BadPayload("from"))), s)
          case Some(u) =>
            Step(Outcome(Some(Flag(true)), [], [], None),
                 s.(warnings := if u in s.warnings then s.warnings else s.warnings[u := 0]))
  }

  /** The payload of a CENSOR request the censor can judge: a text message from an identifier. */
  predicate Judgeable(p: Payload)
  {
    TextAt(p, "message").Some? && IdAt(p, "from").Some?
  }

  /** The answer is the verdict on the message; a notice goes out exactly when the
      message is refused, from the censor to the sender, carrying the sender's new
      count; and afterwards the sender has an entry. */
  lemma CensorAnswer(s: CensorState, p: Payload)
    requires Judgeable(p)
    ensures var r := CensorStep(s, Censor, p);
      var m, u := TextAt(p, "message").value, IdAt(p, "from").value;
      && r.out.response == Some(Flag(Accepts(s.words, m)))
      && r.out.fault == None
      && r.out.calls == []
      && u in r.next.warnings
      && (Accepts(s.words, m) ==> r.out.emitted == [])
      && (!Accepts(s.words, m) ==>
            r.out.emitted == [ToSubscribers(SaysTo, Notice(s.id, u, r.next.warnings[u]))])
  {
  }

  /** A refused message raises its sender's count by exactly one, however many denied
      words it holds, and no other user's count changes. */
  lemma RefusalChargesOne(s: CensorState, p: Payload, v: CellId)
    requires Judgeable(p) && !Accepts(s.words, TextAt(p, "message").value)
    ensures var u, next := IdAt(p, "from").value, CensorStep(s, Censor, p).next;
      && Warnings(next.warnings, u) == Warnings(s.warnings, u) + 1
      && (v != u ==> Warnings(next.warnings, v) == Warnings(s.warnings, v))
      && next.warnings.Keys == s.warnings.Keys + {u}
  {
  }

  /** An accepted message changes no count; it only creates a missing entry as zero. */
  lemma AcceptanceChargesNothing(s: CensorState, p: Payload, v: CellId)
    requires Judgeable(p) && Accepts(s.words, TextAt(p, "message").value)
    ensures var u, next := IdAt(p, "from").value, CensorStep(s, Censor, p).next;
      && Warnings(next.warnings, v) == Warnings(s.warnings, v)
      && next.warnings.Keys == s.warnings.Keys + {u}
  {
  }

  /** Warning counts never decrease and entries are never removed. */
  ghost predicate Grows(before: map<CellId, nat>, after: map<CellId, nat>)
  {
    forall u :: u in before ==> u in after && before[u] <= after[u]
  }

  lemma CensorMonotone(s: CensorState, topic: Topic, p: Payload)
    ensures Grows(s.warnings, CensorStep(s, topic, p).next.warnings)
  {
  }

  /** Whether an event is a refusal charged to u. */
  predicate Charges(words: set<string>, e: Event, u: CellId)
  {
    && e.topic.Censor?
    && TextAt(e.payload, "message").Some?
    && !Accepts(words, TextAt(e.payload, "message").value)
    && IdAt(e.payload, "from") == Some(u)
  }

  /** The state after a sequence of events, handled one after the other. */
  function CensorRun(s: CensorState, events: seq<Event>): (r: CensorState)
    ensures r.id == s.id && r.words == s.words
    decreases |events|
  {
    if events == [] then s
    else CensorRun(CensorStep(s, events[0].topic, events[0].payload).next, events[1..])
  }

  function Charged(words: set<string>, events: seq<Event>, u: CellId): nat
  {
    if events == [] then 0
    else (if Charges(words, events[0], u) then 1 else 0) + Charged(words, events[1..], u)
  }

  lemma StepCharge(s: CensorState, e: Event, u: CellId)
    ensures Warnings(CensorStep(s, e.topic, e.payload).next.warnings, u)
         == Warnings(s.warnings, u) + (if Charges(s.words, e, u) then 1 else 0)
  {
  }

  /** Over any run of events, a user's count grows by exactly the number of their
      refused messages: the counter is never reset and nothing else moves it. */
  lemma {:induction false} RunCharges(s: CensorState, events: seq<Event>, u: CellId)
    ensures Warnings(CensorRun(s, events).warnings, u) == Warnings(s.warnings, u) + Charged(s.words, events, u)
    decreases |events|
  {
    if events != [] {
      var next := CensorStep(s, events[0].topic, events[0].payload).next;
      StepCharge(s, events[0], u);
      RunCharges(next, events[1..], u);
    }
  }

  /** The denylist matches whole pieces only: "hell?" is not "hell", nor is a piece
      that carries a tab. */
  lemma PunctuationIsPartOfThePiece()
    ensures Accepts({"hell"}, "hell?")
    ensures Accepts({"hell"}, "hell\tno")
  {
    SplitWord("hell?");
    SplitWord("hell\tno");
  }

  /** "hell" between spaces is a piece of its own and is refused. */
  lemma SpacedWordIsRefused()
    ensures !Accepts({"hell"}, "what teh hell ?")
  {
    var pieces := ["what", "teh", "hell", "?"];
    assert Join(pieces[3..]) == "?";
    assert Join(pieces[2..]) == "hell ?";
    assert Join(pieces[1..]) == "teh hell ?";
    assert Join(pieces) == "what teh hell ?";
    SplitJoin(pieces);
    assert pieces[2] in Split("what teh hell ?");
  }

  class Censor {
    const id: CellId
    var words: set<string>
    var warnings: map<CellId, nat>

    function State(): CensorState
      reads this
    {
      CensorState(id, words, warnings)
    }

    /** newCensor: the denylist holds exactly the given words and nobody has a warning. */
    constructor (id: CellId, ws: seq<string>)
      ensures this.id == id
      ensures forall w :: w in words <==> w in ws
      ensures warnings == map[]
    {
      var denied := {};
      for i := 0 to |ws|
        invariant forall w :: w in denied <==> w in ws[..i]
      {
        denied := denied + {ws[i]};
      }
      assert ws[..|ws|] == ws;
      this.id := id;
      words := denied;
      warnings := map[];
    }

    /** filter: checks the pieces left to right and stops at the first denied one,
        charging its sender one warning. None stands for the panic of a refused
        message whose sender is not an identifier. */
    method Filter(message: string, from: Option<CellId>) returns (verdict: Option<bool>)
      modifies this`warnings
      ensures verdict == if Accepts(words, message) then Some(true)
                         else if from.None? then None else Some(false)
      ensures warnings == if verdict == Some(false)
                          then old(warnings)[from.value := Warnings(old(warnings), from.value) + 1]
                          else old(warnings)
    {
      var pieces := Split(message);
      for i := 0 to |pieces|
        invariant forall j :: 0 <= j < i ==> pieces[j] !in words
      {
        if pieces[i] in words {
          if from.None? {
            return None;
          }
          warnings := warnings[from.value := Warnings(warnings, from.value) + 1];
          return Some(false);
        }
      }
      return Some(true);
    }

    /** ProcessEvent: handles CENSOR as CensorStep says; the denylist is never touched. */
    method ProcessEvent(topic: Topic, p: Payload) returns (out: Outcome)
      modifies this`warnings
      ensures Step(out, State()) == CensorStep(old(State()), topic, p)
    {
      if !topic.Censor? {
        return Quiet;
      }
      var message := TextAt(p, "message");
      if message.None? {
        return Failure(BadPayload("message"));
      }
      var from := IdAt(p, "from");
      var ok := Filter(message.value, from);
      if ok.None? {
        return Failure(BadPayload("from"));
      }
      var response := Some(Flag(ok.value));
      if from.None? {
        return Outcome(response, [], [], Some(BadPayload("from")));
      }
      var u := from.value;
      if u !in warnings {
        warnings := warnings[u := 0];
      }
      if !ok.value {
        return Outcome(response, [ToSubscribers(SaysTo, Notice(id, u, warnings[u]))], [], None);
      }
      return Outcome(response, [], [], None);
    }
  }
}
