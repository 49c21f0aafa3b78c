/** The per-request source cache, and the record visibility rule that rests on it. */
module Sources {
  import opened Wrappers
  import opened Text

  datatype RecordSource = RecordSource(
    productOperation: Option<string>, formation: Option<nat>, messageIndex: Option<nat>, payloadDigest: Option<string>)

  datatype MessageRef = MessageRef(index: string, role: string, contentDigest: string, submittedDigest: Option<string>)
  datatype Provenance = Provenance(caller: string, messages: seq<MessageRef>, source: string)
  datatype Submission = Submission(conversation: nat, native: Option<nat>, provenance: Option<Provenance>)
  datatype IndexRow = IndexRow(native: nat, user: string, journalKey: string)

  /** A stored message with its digest and, when it parses, its text. */
  datatype Message = Message(digest: string, text: Option<string>)
  datatype Conversation = Conversation(user: string, messages: seq<Message>)

  /** What one request reads, and the reads of it that end in an error: index searches by
      native conversation, journal keys, conversations, and corrections. */
  datatype Store = Store(
    index: seq<IndexRow>, journal: map<string, Submission>, conversations: map<nat, Conversation>,
    corrections: map<(string, RecordSource), string>,
    unsearchable: set<nat>, unreadable: set<string>, failing: set<nat>, withheld: set<RecordSource>)

  const FAILED := "database error"

  datatype MemorySource =
    | Correction(statement: string)
    | Quoted(conversation: nat, index: string, role: string, text: Option<string>, truncated: bool, source: string)

  const QUOTE_CHARS := 4096

  type Facts = (string, Option<string>, bool)

  function FactsOf(message: Message): Facts {
    match message.text
    case None => (message.digest, None, false)
    case Some(text) =>
      (message.digest, Some(if |text| <= QUOTE_CHARS then text else text[..QUOTE_CHARS]), |text| > QUOTE_CHARS)
  }

  function Search(index: seq<IndexRow>, native: nat, user: string): seq<IndexRow> {
    if index == [] then []
    else (if index[0].native == native && index[0].user == user then [index[0]] else []) + Search(index[1..], native, user)
  }

  function JournalRow(store: Store, key: string): Result<Option<Submission>, string> {
    if key in store.unreadable then Err(FAILED)
    else Ok(if key in store.journal then Some(store.journal[key]) else None)
  }

  /** The one submission the index names for a native conversation. */
  function FormationOf(store: Store, caller: string, native: nat): Result<Option<Submission>, string> {
    if native in store.unsearchable then Err(FAILED)
    else
      var rows := Search(store.index, native, caller);
      if |rows| == 1 then JournalRow(store, rows[0].journalKey) else Ok(None)
  }

  function CorrectionOf(store: Store, caller: string, source: RecordSource): Result<Option<MemorySource>, string> {
    if source in store.withheld then Err(FAILED)
    else Ok(if (caller, source) in store.corrections then Some(Correction(store.corrections[(caller, source)])) else None)
  }

  function OwnConversation(store: Store, caller: string, id: nat): Option<Conversation> {
    if id in store.conversations && store.conversations[id].user == caller then Some(store.conversations[id]) else None
  }

  /** A message index: decimal digits, after a plus sign if there is one. */
  function Position(index: string): Option<nat> {
    var digits := if index != "" && index[0] == '+' then index[1..] else index;
    if Digits(digits) then Some(ParseDecimal(digits)) else None
  }

  /** The reference a source names in a submission that vouches for it. */
  function Reference(submission: Submission, caller: string, native: nat, index: nat, digest: string): Option<MessageRef> {
    if submission.native == Some(native) && submission.provenance.Some?
       && submission.provenance.value.caller == caller
       && index < |submission.provenance.value.messages|
       && submission.provenance.value.messages[index].submittedDigest == Some(digest)
    then Some(submission.provenance.value.messages[index]) else None
  }

  /** Resolution without any cache. */
  function Fresh(store: Store, caller: string, source: RecordSource): Result<Option<MemorySource>, string> {
    if source.productOperation.Some? then CorrectionOf(store, caller, source)
    else if source.formation.None? || source.messageIndex.None? || source.payloadDigest.None? then Ok(None)
    else
      var native := source.formation.value;
      match FormationOf(store, caller, native)
      case Err(error) => Err(error)
      case Ok(None) => Ok(None)
      case Ok(Some(submission)) =>
        match Reference(submission, caller, native, source.messageIndex.value, source.payloadDigest.value)
        case None => Ok(None)
        case Some(reference) =>
          if submission.conversation in store.failing then Err(FAILED)
          else match OwnConversation(store, caller, submission.conversation)
            case None => Ok(None)
            case Some(conversation) =>
              if Position(reference.index).None? || Position(reference.index).value >= |conversation.messages| then Ok(None)
              else
                var (digest, text, truncated) := FactsOf(conversation.messages[Position(reference.index).value]);
                if digest != reference.contentDigest then Ok(None)
                else Ok(Some(Quoted(submission.conversation, reference.index, reference.role, text, truncated,
                                    submission.provenance.value.source)))
  }

  class SourceResolver {
    const store: Store
    const caller: string
    var formations: map<nat, Option<Submission>>
    var conversations: map<nat, Option<Conversation>>
    var messages: map<(nat, nat), Facts>
    var resolved: map<RecordSource, Option<MemorySource>>

    /** Every cached answer is the answer the store would give. */
    ghost predicate Valid()
      reads this
    {
      && (forall n :: n in formations ==> FormationOf(store, caller, n) == Ok(formations[n]))
      && (forall id :: id in conversations ==>
            id !in store.failing && conversations[id] == OwnConversation(store, caller, id))
      && (forall key :: key in messages ==>
            key.0 in store.conversations && key.1 < |store.conversations[key.0].messages|
            && messages[key] == FactsOf(store.conversations[key.0].messages[key.1]))
      && (forall source :: source in resolved ==> Fresh(store, caller, source) == Ok(resolved[source]))
    }

    constructor (store: Store, caller: string)
      ensures Valid() && this.store == store && this.caller == caller
    {
      this.store, this.caller := store, caller;
      formations, conversations, messages, resolved := map[], map[], map[], map[];
    }

    /** Whatever was resolved before, the answer is the uncached one. */
    method Resolve(source: RecordSource) returns (answer: Result<Option<MemorySource>, string>)
      requires Valid()
      modifies this
      ensures Valid() && answer == Fresh(store, caller, source)
      ensures answer.Ok? ==> source in resolved
    {
      if source in resolved {
        return Ok(resolved[source]);
      }
      answer := ResolveUncached(source);
      if answer.Ok? {
        resolved := resolved[source := answer.value];
      }
    }

    method FormationFor(native: nat) returns (row: Result<Option<Submission>, string>)
      requires Valid()
      modifies `formations
      ensures Valid() && row == FormationOf(store, caller, native)
    {
      hide Search, Fresh;
      if native !in formations {
        if native in store.unsearchable {
          return Err(FAILED);
        }
        var rows := Search(store.index, native, caller);
        var stored := None;
        if |rows| == 1 {
          var read := JournalRow(store, rows[0].journalKey);
          if read.Err? {
            return Err(read.error);
          }
          stored := read.value;
        }
        formations := formations[native := stored];
      }
      return Ok(formations[native]);
    }

    method ConversationFor(id: nat) returns (owned: Result<Option<Conversation>, string>)
      requires Valid()
      modifies `conversations
      ensures Valid()
      ensures owned == if id in store.failing then Err(FAILED) else Ok(OwnConversation(store, caller, id))
    {
      hide Fresh;
      if id !in conversations {
        if id in store.failing {
          return Err(FAILED);
        }
        conversations := conversations[id := OwnConversation(store, caller, id)];
      }
      return Ok(conversations[id]);
    }

    method FactsFor(id: nat, index: nat, conversation: Conversation) returns (facts: Facts)
      requires Valid() && OwnConversation(store, caller, id) == Some(conversation) && index < |conversation.messages|
      modifies `messages
      ensures Valid() && facts == FactsOf(conversation.messages[index])
    {
      hide Fresh, FactsOf;
      if (id, index) !in messages {
        messages := messages[(id, index) := FactsOf(conversation.messages[index])];
      }
      return messages[(id, index)];
    }

    method ResolveUncached(source: RecordSource) returns (answer: Result<Option<MemorySource>, string>)
      requires Valid()
      modifies this
      ensures Valid() && answer == Fresh(store, caller, source)
    {
      hide FormationOf, OwnConversation, Position, FactsOf, Valid;
      if source.productOperation.Some? {
        if source in store.withheld {
          return Err(FAILED);
        }
        if (caller, source) in store.corrections {
          return Ok(Some(Correction(store.corrections[(caller, source)])));
        }
        return Ok(None);
      }
      if source.formation.None? || source.messageIndex.None? || source.payloadDigest.None? {
        return Ok(None);
      }
      var native := source.formation.value;
      var row := FormationFor(native);
      if row.Err? {
        return Err(row.error);
      }
      if row.value.None? {
        return Ok(None);
      }
      var submission := row.value.value;
      var found := Reference(submission, caller, native, source.messageIndex.value, source.payloadDigest.value);
      if found.None? {
        return Ok(None);
      }
      var reference := found.value;
      var id := submission.conversation;
      var owned := ConversationFor(id);
      if owned.Err? {
        return Err(owned.error);
      }
      if owned.value.None? {
        return Ok(None);
      }
      var conversation := owned.value.value;
      var position := Position(reference.index);
      if position.None? || position.value >= |conversation.messages| {
        return Ok(None);
      }
      var facts := FactsFor(id, position.value, conversation);
      if facts.0 != reference.contentDigest {
        return Ok(None);
      }
      return Ok(Some(Quoted(id, reference.index, reference.role, facts.1, facts.2, submission.provenance.value.source)));
    }
  }

  // ---------------------------------------------------------------- what a source resolves to

  /** An index is read from any decimal text, with or without a plus sign, and from nothing else. */
  lemma PositionExactly(index: string)
    ensures Position(index).Some? <==> Digits(index) || (index != "" && index[0] == '+' && Digits(index[1..]))
    ensures forall n: nat :: Position(Decimal(n)) == Some(n) && Position("+" + Decimal(n)) == Some(n)
  {
    forall n: nat
      ensures Position(Decimal(n)) == Some(n) && Position("+" + Decimal(n)) == Some(n)
    {
      DecimalRoundTrip(n);
      assert ("+" + Decimal(n))[1..] == Decimal(n);
    }
  }

  /** The only index row of the caller for a native conversation, and its journal key. */
  ghost predicate OnlyRow(index: seq<IndexRow>, native: nat, user: string, i: nat) {
    i < |index| && forall j :: 0 <= j < |index| ==> (index[j].native == native && index[j].user == user <==> j == i)
  }

  lemma {:induction false} SearchFinds(index: seq<IndexRow>, native: nat, user: string)
    ensures Search(index, native, user) == [] <==> forall j :: 0 <= j < |index| ==> !(index[j].native == native && index[j].user == user)
    ensures |Search(index, native, user)| == 1 <==> exists i: nat :: OnlyRow(index, native, user, i)
    ensures forall i: nat :: OnlyRow(index, native, user, i) ==> Search(index, native, user) == [index[i]]
  {
    if index != [] {
      var rest := index[1..];
      SearchFinds(rest, native, user);
      assert forall j :: 0 <= j < |rest| ==> rest[j] == index[j + 1];
      var here := index[0].native == native && index[0].user == user;
      assert Search(index, native, user) == (if here then [index[0]] else []) + Search(rest, native, user);
      if !here {
        assert forall i: nat :: OnlyRow(rest, native, user, i) ==> OnlyRow(index, native, user, i + 1);
        assert forall i: nat :: OnlyRow(index, native, user, i) ==> i > 0 && OnlyRow(rest, native, user, i - 1);
      } else {
        assert forall i: nat :: OnlyRow(index, native, user, i) ==> i == 0;
        if Search(rest, native, user) == [] {
          assert OnlyRow(index, native, user, 0);
        }
      }
    }
  }

  predicate HasCoordinates(source: RecordSource) {
    source.productOperation.None? && source.formation.Some? && source.messageIndex.Some? && source.payloadDigest.Some?
  }

  /** The submission vouches for the source: it formed the native conversation for the caller,
      and the message the source names was submitted with the digest the source has. */
  predicate Vouches(submission: Submission, caller: string, source: RecordSource)
    requires HasCoordinates(source)
  {
    && submission.native == source.formation
    && submission.provenance.Some? && submission.provenance.value.caller == caller
    && source.messageIndex.value < |submission.provenance.value.messages|
    && submission.provenance.value.messages[source.messageIndex.value].submittedDigest == source.payloadDigest
  }

  /** The message a submission refers to, in a conversation of the caller, unchanged since. */
  predicate Unchanged(store: Store, caller: string, conversation: nat, reference: MessageRef, at: nat) {
    && conversation in store.conversations && store.conversations[conversation].user == caller
    && at < |store.conversations[conversation].messages| && Position(reference.index) == Some(at)
    && store.conversations[conversation].messages[at].digest == reference.contentDigest
  }

  /** A message's text, at most its first 4096 characters, marked exactly when it was cut. */
  predicate QuotesText(text: Option<string>, truncated: bool, message: Message) {
    if message.text.None? then text.None? && !truncated
    else
      && text.Some? && text.value <= message.text.value && |text.value| <= 4096
      && (truncated <==> |message.text.value| > 4096)
      && |text.value| == if truncated then 4096 else |message.text.value|
  }

  /** The reads on the way to a source that fail. */
  ghost predicate SomeReadFailed(store: Store, caller: string, source: RecordSource)
    requires HasCoordinates(source)
  {
    || source.formation.value in store.unsearchable
    || exists i: nat :: OnlyRow(store.index, source.formation.value, caller, i)
         && (var key := store.index[i].journalKey;
             || key in store.unreadable
             || (key in store.journal && Vouches(store.journal[key], caller, source) && store.journal[key].conversation in store.failing))
  }

  /** The quotation of a source that has one. */
  ghost predicate QuotedFrom(store: Store, caller: string, source: RecordSource, answer: MemorySource)
    requires HasCoordinates(source)
  {
    && answer.Quoted?
    && exists i: nat, at: nat :: OnlyRow(store.index, source.formation.value, caller, i)
         && store.index[i].journalKey in store.journal
         && (var submission := store.journal[store.index[i].journalKey];
             && Vouches(submission, caller, source) && answer.conversation == submission.conversation
             && (var reference := submission.provenance.value.messages[source.messageIndex.value];
                 && Unchanged(store, caller, answer.conversation, reference, at)
                 && answer.index == reference.index && answer.role == reference.role
                 && answer.source == submission.provenance.value.source
                 && QuotesText(answer.text, answer.truncated, store.conversations[answer.conversation].messages[at])))
  }

  /** A source of a conversation resolves to a quotation exactly when the one index row for it
      leads to a submission that vouches for it and to a message of the caller's that is still
      what was vouched for; it fails exactly when a read on that way does. */
  lemma QuotesExactly(store: Store, caller: string, source: RecordSource, answer: MemorySource)
    requires HasCoordinates(source)
    ensures Fresh(store, caller, source).Err? <==> SomeReadFailed(store, caller, source)
    ensures Fresh(store, caller, source) == Ok(Some(answer)) <==>
              !SomeReadFailed(store, caller, source) && QuotedFrom(store, caller, source, answer)
  {
    var native := source.formation.value;
    SearchFinds(store.index, native, caller);
    if native !in store.unsearchable && exists i: nat :: OnlyRow(store.index, native, caller, i) {
      var i: nat :| OnlyRow(store.index, native, caller, i);
      QuotesFrom(store, caller, source, answer, i);
    }
  }

  function AnswerText(answer: MemorySource): Option<string> { if answer.Quoted? then answer.text else None }

  function AnswerCut(answer: MemorySource): bool { answer.Quoted? && answer.truncated }

  lemma TextExactly(message: Message, text: Option<string>, truncated: bool)
    ensures FactsOf(message).0 == message.digest
    ensures QuotesText(text, truncated, message) <==> text == FactsOf(message).1 && truncated == FactsOf(message).2
  {
    if message.text.Some? && text.Some? {
      var full := message.text.value;
      assert full[..|full|] == full;
      assert text.value <= full ==> text.value == full[..|text.value|];
    }
  }

  lemma QuotesFrom(store: Store, caller: string, source: RecordSource, answer: MemorySource, i: nat)
    requires HasCoordinates(source) && source.formation.value !in store.unsearchable
    requires OnlyRow(store.index, source.formation.value, caller, i)
    requires Search(store.index, source.formation.value, caller) == [store.index[i]]
    ensures Fresh(store, caller, source).Err? <==> SomeReadFailed(store, caller, source)
    ensures Fresh(store, caller, source) == Ok(Some(answer)) <==>
              !SomeReadFailed(store, caller, source) && QuotedFrom(store, caller, source, answer)
  {
    hide Search, Position, FactsOf, QuotesText;
    forall message: Message
      ensures FactsOf(message).0 == message.digest
      ensures QuotesText(AnswerText(answer), AnswerCut(answer), message) <==>
                AnswerText(answer) == FactsOf(message).1 && AnswerCut(answer) == FactsOf(message).2
    {
      TextExactly(message, AnswerText(answer), AnswerCut(answer));
    }
    assert forall k: nat :: OnlyRow(store.index, source.formation.value, caller, k) ==> k == i;
  }

  /** A source of a correction resolves to the correction of the caller's, where there is one. */
  lemma CorrectionExactly(store: Store, caller: string, source: RecordSource, answer: MemorySource)
    requires source.productOperation.Some?
    ensures Fresh(store, caller, source).Err? <==> source in store.withheld
    ensures Fresh(store, caller, source) == Ok(Some(answer)) <==>
              source !in store.withheld && (caller, source) in store.corrections
              && answer == Correction(store.corrections[(caller, source)])
  {
  }

  /** A source without coordinates resolves to nothing. */
  lemma OthersResolveToNothing(store: Store, caller: string, source: RecordSource)
    requires source.productOperation.None? && !HasCoordinates(source)
    ensures Fresh(store, caller, source) == Ok(None)
  {
  }

  // ---------------------------------------------------------------- which records are shown

  const MAX_SOURCES := 32

  datatype Record = Record(
    sources: seq<RecordSource>, sourcesComplete: bool, actorKey: Option<string>, actorId: Option<string>,
    support: bool, active: bool, stored: bool, linked: bool)

  datatype ActionName = DeleteIt | SuppressIt | CorrectIt | WorldChanged | ReportMisrecorded

  datatype View = View(sources: seq<MemorySource>, sourcesComplete: bool, actions: set<ActionName>)

  function ResolvedOf(store: Store, caller: string, sources: seq<RecordSource>): Result<seq<MemorySource>, string> {
    if sources == [] then Ok([])
    else
      match ResolvedOf(store, caller, sources[..|sources| - 1])
      case Err(error) => Err(error)
      case Ok(before) =>
        match Fresh(store, caller, sources[|sources| - 1])
        case Err(error) => Err(error)
        case Ok(None) => Ok(before)
        case Ok(Some(source)) => Ok(before + [source])
  }

  function Head(sources: seq<RecordSource>): seq<RecordSource> {
    if |sources| <= MAX_SOURCES then sources else sources[..MAX_SOURCES]
  }

  predicate Unsourced(record: Record, brainActors: set<string>) {
    && record.sources == []
    && (record.actorKey == Some("$self") || record.actorKey == Some("$system")
        || (record.actorId.Some? && record.actorId.value in brainActors))
  }

  function Actions(record: Record, caller: string, complete: bool): set<ActionName> {
    if !complete then {}
    else
      {DeleteIt}
      + (if record.stored then {SuppressIt} else {})
      + (if record.actorKey == Some(caller) && record.support && record.active && record.stored && record.linked
         then {CorrectIt, WorldChanged} else {})
      + (if record.support && record.active && record.stored && record.sources != [] then {ReportMisrecorded} else {})
  }

  function ViewOf(record: Record, sources: seq<MemorySource>, caller: string, brainActors: set<string>): Option<View> {
    var complete := record.sourcesComplete && |sources| == |record.sources|;
    if !complete && !Unsourced(record, brainActors) && (record.actorKey != Some(caller) || sources != []) then None
    else Some(View(sources, complete, Actions(record, caller, complete)))
  }

  function Projected(store: Store, caller: string, record: Record, brainActors: set<string>): Result<Option<View>, string> {
    match ResolvedOf(store, caller, Head(record.sources))
    case Err(error) => Err(error)
    case Ok(sources) => Ok(ViewOf(record, sources, caller, brainActors))
  }

  method Project(record: Record, resolver: SourceResolver, brainActors: set<string>)
    returns (answer: Result<Option<View>, string>)
    requires resolver.Valid()
    modifies resolver
    ensures resolver.Valid() && answer == Projected(resolver.store, resolver.caller, record, brainActors)
  {
    var head := Head(record.sources);
    var sources: seq<MemorySource> := [];
    for i := 0 to |head|
      invariant resolver.Valid()
      invariant ResolvedOf(resolver.store, resolver.caller, head[..i]) == Ok(sources)
    {
      var next := resolver.Resolve(head[i]);
      assert head[..i + 1][..i] == head[..i];
      if next.Err? {
        FailureStays(resolver.store, resolver.caller, head, i + 1);
        return Err(next.error);
      }
      if next.value.Some? {
        sources := sources + [next.value.value];
      }
    }
    assert head[..|head|] == head;
    return Ok(ViewOf(record, sources, resolver.caller, brainActors));
  }

  lemma {:induction false} FailureStays(store: Store, caller: string, sources: seq<RecordSource>, k: nat)
    requires k <= |sources| && ResolvedOf(store, caller, sources[..k]).Err?
    ensures ResolvedOf(store, caller, sources) == ResolvedOf(store, caller, sources[..k])
  {
    if k == |sources| {
      assert sources[..k] == sources;
    } else {
      assert sources[..|sources| - 1][..k] == sources[..k];
      FailureStays(store, caller, sources[..|sources| - 1], k);
    }
  }

  predicate Resolves(store: Store, caller: string, source: RecordSource) {
    Fresh(store, caller, source).Ok? && Fresh(store, caller, source).value.Some?
  }

  lemma {:induction false} CountsResolved(store: Store, caller: string, sources: seq<RecordSource>)
    requires ResolvedOf(store, caller, sources).Ok?
    ensures |ResolvedOf(store, caller, sources).value| <= |sources|
    ensures |ResolvedOf(store, caller, sources).value| == |sources| <==>
              forall i :: 0 <= i < |sources| ==> Resolves(store, caller, sources[i])
    ensures ResolvedOf(store, caller, sources).value == [] <==>
              forall i :: 0 <= i < |sources| ==> !Resolves(store, caller, sources[i])
  {
    if sources != [] {
      var before, last := sources[..|sources| - 1], sources[|sources| - 1];
      CountsResolved(store, caller, before);
      assert sources == before + [last];
      assert forall i :: 0 <= i < |before| ==> before[i] == sources[i];
    }
  }

  lemma {:induction false} AllResolveIsOk(store: Store, caller: string, sources: seq<RecordSource>)
    requires forall i :: 0 <= i < |sources| ==> Resolves(store, caller, sources[i])
    ensures ResolvedOf(store, caller, sources).Ok?
  {
    if sources != [] {
      AllResolveIsOk(store, caller, sources[..|sources| - 1]);
      assert Resolves(store, caller, sources[|sources| - 1]);
    }
  }

  /** A projection fails exactly when the read of one of the first 32 sources does. */
  lemma ProjectionFailsExactly(store: Store, caller: string, record: Record, brainActors: set<string>)
    ensures Projected(store, caller, record, brainActors).Err?
       <==> exists i :: 0 <= i < |Head(record.sources)| && Fresh(store, caller, Head(record.sources)[i]).Err?
  {
    SomeReadFails(store, caller, Head(record.sources));
  }

  lemma {:induction false} SomeReadFails(store: Store, caller: string, sources: seq<RecordSource>)
    ensures ResolvedOf(store, caller, sources).Err?
       <==> exists i :: 0 <= i < |sources| && Fresh(store, caller, sources[i]).Err?
  {
    if sources != [] {
      var before, last := sources[..|sources| - 1], sources[|sources| - 1];
      SomeReadFails(store, caller, before);
      assert sources == before + [last];
      assert forall i :: 0 <= i < |before| ==> before[i] == sources[i];
    }
  }

  predicate ShownInFull(answer: Result<Option<View>, string>) {
    answer.Ok? && answer.value.Some? && answer.value.value.sourcesComplete
  }

  /** A record is shown as fully sourced exactly when its sources are complete, at most 32,
      and every one of them resolves for the caller. */
  lemma FullySourcedExactly(store: Store, caller: string, record: Record, brainActors: set<string>)
    ensures ShownInFull(Projected(store, caller, record, brainActors))
       <==> record.sourcesComplete && |record.sources| <= MAX_SOURCES
            && forall i :: 0 <= i < |record.sources| ==> Resolves(store, caller, record.sources[i])
  {
    var resolved := ResolvedOf(store, caller, Head(record.sources));
    if resolved.Ok? {
      CountsResolved(store, caller, Head(record.sources));
    }
    if record.sourcesComplete && |record.sources| <= MAX_SOURCES
       && forall i :: 0 <= i < |record.sources| ==> Resolves(store, caller, record.sources[i]) {
      AllResolveIsOk(store, caller, record.sources);
    }
  }

  /** A record is shown exactly when it is fully sourced, or has no source at all and is the
      owner's self, the system's or Brain's own, or is the caller's and none of its sources
      resolved. */
  lemma ShownExactly(store: Store, caller: string, record: Record, brainActors: set<string>)
    requires ResolvedOf(store, caller, Head(record.sources)).Ok?
    ensures var resolved := ResolvedOf(store, caller, Head(record.sources)).value;
      var full := record.sourcesComplete && |resolved| == |record.sources|;
      var answer := Projected(store, caller, record, brainActors);
      && answer.Ok?
      && (answer.value.Some? <==>
            || full
            || (record.sources == []
                && (record.actorKey == Some("$self") || record.actorKey == Some("$system")
                    || exists actor :: actor in brainActors && record.actorId == Some(actor)))
            || (record.actorKey == Some(caller) && resolved == []))
      && (answer.value.Some? ==> answer.value.value.sources == resolved && answer.value.value.sourcesComplete == full)
  {
  }

  /** What may be done with a shown record: nothing unless it is fully sourced; it can then
      always be deleted, suppressed if it is stored, corrected or called outdated if it is the
      caller's own active, stored and linked support, and reported if it is active, stored
      support that has a source. */
  lemma ActionsExactly(store: Store, caller: string, record: Record, brainActors: set<string>, view: View)
    requires Projected(store, caller, record, brainActors) == Ok(Some(view))
    ensures var live := record.support && record.active && record.stored;
      && (DeleteIt in view.actions <==> view.sourcesComplete)
      && (SuppressIt in view.actions <==> view.sourcesComplete && record.stored)
      && (CorrectIt in view.actions <==> view.sourcesComplete && live && record.linked && record.actorKey == Some(caller))
      && (WorldChanged in view.actions <==> CorrectIt in view.actions)
      && (ReportMisrecorded in view.actions <==> view.sourcesComplete && live && record.sources != [])
  {
  }

  /** A record of which only some sources resolve is never shown: what is shown with any
      source at all is fully sourced, and the rest is the Brain's own or the caller's. */
  lemma NeverPartlySourced(store: Store, caller: string, record: Record, brainActors: set<string>, view: View)
    requires Projected(store, caller, record, brainActors) == Ok(Some(view))
    ensures view.sources != [] ==> view.sourcesComplete
    ensures !view.sourcesComplete ==>
              view.actions == {} && (Unsourced(record, brainActors) || record.actorKey == Some(caller))
              && forall i :: 0 <= i < |Head(record.sources)| ==> !Resolves(store, caller, Head(record.sources)[i])
  {
    CountsResolved(store, caller, Head(record.sources));
  }

  /** Past the first 32 sources none is resolved, so a longer list hides its record even when
      every source would resolve. */
  lemma ManySourcesHideTheRecord(store: Store, caller: string, record: Record, brainActors: set<string>)
    requires |record.sources| > MAX_SOURCES
    requires forall i :: 0 <= i < |record.sources| ==> Resolves(store, caller, record.sources[i])
    ensures Projected(store, caller, record, brainActors) == Ok(None)
  {
    var head := Head(record.sources);
    assert forall i :: 0 <= i < |head| ==> head[i] == record.sources[i];
    AllResolveIsOk(store, caller, head);
    CountsResolved(store, caller, head);
  }
}
