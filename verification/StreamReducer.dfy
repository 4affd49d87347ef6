// The frontend's reducer from stream events to the list of thread messages.

module StreamReducer {
  import opened Wrappers

  datatype Role = User | Assistant | StatusRole | ErrorRole

  datatype Message = Message(id: string, role: Role, text: string, images: seq<string>, optimistic: bool, streaming: bool)

  datatype Part = Part(kind: string, text: string, imageRef: string)

  // id is None when the field is absent.
  datatype Item = Item(id: Option<string>, kind: string, content: seq<Part>)

  // A field that is absent or has another type is None; newId is the random
  // id a finished item without an id gets.
  datatype Event =
    | OutputItemAdded(item: Option<Item>)
    | OutputTextDelta(itemId: Option<string>, item: Option<Item>, delta: Option<string>)
    | OutputItemDone(item: Option<Item>, newId: string)
    | ResponseEnded

  // ---------------------------------------------------------------------
  // The reducers
  // ---------------------------------------------------------------------

  function IndexOf(current: seq<Message>, id: string): (i: int)
    ensures -1 <= i < |current|
    ensures i >= 0 ==> current[i].id == id
    ensures forall k :: 0 <= k < (if i < 0 then |current| else i) ==> current[k].id != id
  {
    if current == [] then -1
    else
      var i := IndexOf(current[..|current| - 1], id);
      if i >= 0 then i else if current[|current| - 1].id == id then |current| - 1 else -1
  }

  predicate IsOptimisticTwin(candidate: Message, incoming: Message) {
    candidate.optimistic && candidate.role == User && candidate.role == incoming.role
    && candidate.text == incoming.text && candidate.images == incoming.images
  }

  function FirstTwin(current: seq<Message>, incoming: Message): (i: int)
    ensures -1 <= i < |current|
    ensures i >= 0 ==> IsOptimisticTwin(current[i], incoming)
    ensures forall k :: 0 <= k < (if i < 0 then |current| else i) ==> !IsOptimisticTwin(current[k], incoming)
  {
    if current == [] then -1
    else
      var i := FirstTwin(current[..|current| - 1], incoming);
      if i >= 0 then i else if IsOptimisticTwin(current[|current| - 1], incoming) then |current| - 1 else -1
  }

  function UpsertMessage(current: seq<Message>, incoming: Message): seq<Message> {
    var existing := IndexOf(current, incoming.id);
    if existing >= 0 then current[existing := incoming]
    else
      var twin := if incoming.role == User then FirstTwin(current, incoming) else -1;
      if twin >= 0 then current[twin := incoming] else current + [incoming]
  }

  function StubOf(item: Option<Item>): Option<Message> {
    if item.Some? && item.value.kind == "message" && item.value.id.Some? && item.value.id.value != "" then
      Some(Message(item.value.id.value, Assistant, "", [], false, true))
    else None
  }

  function ApplyOutputItemAdded(current: seq<Message>, item: Option<Item>): seq<Message> {
    match StubOf(item)
    case None => current
    case Some(stub) => if IndexOf(current, stub.id) >= 0 then current else UpsertMessage(current, stub)
  }

  function ItemId(itemId: Option<string>, item: Option<Item>): string {
    if itemId.Some? && itemId.value != "" then itemId.value
    else if item.Some? && item.value.id.Some? then item.value.id.value
    else ""
  }

  function ApplyOutputTextDelta(current: seq<Message>, itemId: Option<string>, item: Option<Item>, delta: Option<string>): seq<Message> {
    var id := ItemId(itemId, item);
    if delta.None? || delta.value == "" || id == "" then current
    else
      var existing := IndexOf(current, id);
      if existing >= 0 then
        current[existing := current[existing].(text := current[existing].text + delta.value, streaming := true)]
      else current + [Message(id, Assistant, delta.value, [], false, true)]
  }

  // White space as trimmed by String.prototype.trim.
  predicate IsJsSpace(c: char) {
    || c == ' ' || '\t' <= c <= '\r' || c == '\U{A0}' || c == '\U{1680}' || '\U{2000}' <= c <= '\U{200A}'
    || c == '\U{2028}' || c == '\U{2029}' || c == '\U{202F}' || c == '\U{205F}' || c == '\U{3000}' || c == '\U{FEFF}'
  }

  function JsTrim(s: string): string {
    if s != "" && IsJsSpace(s[0]) then JsTrim(s[1..])
    else if s != "" && IsJsSpace(s[|s| - 1]) then JsTrim(s[..|s| - 1])
    else s
  }

  // The non-blank output texts, trimmed and set apart by blank lines.
  function JoinTexts(content: seq<Part>): string {
    if content == [] then ""
    else
      var before, part := JoinTexts(content[..|content| - 1]), content[|content| - 1];
      var text := if part.kind == "output_text" then JsTrim(part.text) else "";
      if text == "" then before else if before == "" then text else before + "\n\n" + text
  }

  function ImagesOf(content: seq<Part>): seq<string> {
    if content == [] then []
    else
      var before, part := ImagesOf(content[..|content| - 1]), content[|content| - 1];
      if part.kind == "image_ref" && part.imageRef != "" then before + [part.imageRef] else before
  }

  function FinishedMessage(item: Option<Item>, newId: string): Option<Message> {
    if item.None? || item.value.kind != "message" then None
    else
      var text, images := JoinTexts(item.value.content), ImagesOf(item.value.content);
      if text == "" && images == [] then None
      else Some(Message(if item.value.id.Some? then item.value.id.value else newId, Assistant, text, images, false, false))
  }

  function FinalizeStreamingMessages(current: seq<Message>): seq<Message> {
    seq(|current|, i requires 0 <= i < |current| => current[i].(streaming := false))
  }

  function Apply(current: seq<Message>, event: Event): seq<Message> {
    match event
    case OutputItemAdded(item) => ApplyOutputItemAdded(current, item)
    case OutputTextDelta(itemId, item, delta) => ApplyOutputTextDelta(current, itemId, item, delta)
    case OutputItemDone(item, newId) =>
      (match FinishedMessage(item, newId)
       case None => current
       case Some(message) => UpsertMessage(current, message))
    case ResponseEnded => FinalizeStreamingMessages(current)
  }

  function ApplyAll(current: seq<Message>, events: seq<Event>): seq<Message> {
    if events == [] then current else Apply(ApplyAll(current, events[..|events| - 1]), events[|events| - 1])
  }

  // ---------------------------------------------------------------------
  // Ids and positions
  // ---------------------------------------------------------------------

  ghost predicate UniqueIds(current: seq<Message>) {
    forall i, j :: 0 <= i < j < |current| ==> current[i].id != current[j].id
  }

  function Ids(current: seq<Message>): seq<string> {
    seq(|current|, i requires 0 <= i < |current| => current[i].id)
  }

  // Whatever is inserted, ids stay unique, every other message keeps its
  // content and place, and at most one message is added, at the end.
  lemma UpsertKeepsTheRest(current: seq<Message>, incoming: Message)
    requires UniqueIds(current)
    ensures var next := UpsertMessage(current, incoming);
      && UniqueIds(next)
      && |current| <= |next| <= |current| + 1
      && (exists k :: 0 <= k < |next| && next[k] == incoming
                   && (forall i :: 0 <= i < |current| && i != k ==> next[i] == current[i])
                   && (k < |current| ==> current[k].id == incoming.id || IsOptimisticTwin(current[k], incoming))
                   && (k == |current| <==> |next| == |current| + 1))
  {
    var next := UpsertMessage(current, incoming);
    var existing := IndexOf(current, incoming.id);
    var k := if existing >= 0 then existing
             else if incoming.role == User && FirstTwin(current, incoming) >= 0 then FirstTwin(current, incoming)
             else |current|;
    assert next[k] == incoming;
  }

  // A message takes the place of the one with its id.
  lemma UpsertById(current: seq<Message>, incoming: Message, k: nat)
    requires UniqueIds(current) && k < |current| && current[k].id == incoming.id
    ensures UpsertMessage(current, incoming) == current[k := incoming]
  {
    assert IndexOf(current, incoming.id) == k;
  }

  // Failing that, a user's message takes the place of the first optimistic one
  // of the user's with the same text and images.
  lemma UpsertByContent(current: seq<Message>, incoming: Message, k: nat)
    requires (forall i :: 0 <= i < |current| ==> current[i].id != incoming.id) && k < |current|
    requires incoming.role == User == current[k].role && current[k].optimistic
    requires current[k].text == incoming.text && current[k].images == incoming.images
    requires forall i :: 0 <= i < k && current[i].role == User && current[i].optimistic ==>
      current[i].text != incoming.text || current[i].images != incoming.images
    ensures UpsertMessage(current, incoming) == current[k := incoming]
  {
    assert IsOptimisticTwin(current[k], incoming);
    assert forall i :: 0 <= i < k ==> !IsOptimisticTwin(current[i], incoming);
  }

  // Failing that, it goes to the end.
  lemma UpsertAtTheEnd(current: seq<Message>, incoming: Message)
    requires forall i :: 0 <= i < |current| ==> current[i].id != incoming.id
    requires incoming.role == User ==> forall i :: 0 <= i < |current| && current[i].role == User && current[i].optimistic ==>
      current[i].text != incoming.text || current[i].images != incoming.images
    ensures UpsertMessage(current, incoming) == current + [incoming]
  {
    assert incoming.role == User ==> forall i :: 0 <= i < |current| ==> !IsOptimisticTwin(current[i], incoming);
  }

  lemma ApplyKeepsPlaces(current: seq<Message>, event: Event)
    requires UniqueIds(current)
    ensures UniqueIds(Apply(current, event))
    ensures Ids(current) <= Ids(Apply(current, event))
  {
  }

  // ---------------------------------------------------------------------
  // Messages
  // ---------------------------------------------------------------------

  function Find(current: seq<Message>, id: string): Option<Message> {
    var i := IndexOf(current, id);
    if i < 0 then None else Some(current[i])
  }

  lemma FindAt(current: seq<Message>, i: nat)
    requires UniqueIds(current) && i < |current|
    ensures Find(current, current[i].id) == Some(current[i])
  {
    var k := IndexOf(current, current[i].id);
    assert k < 0 || current[k].id == current[i].id;
  }

  // Lists that differ only in messages called `touched` hold the same message
  // under any other id.
  lemma SameMessage(current: seq<Message>, next: seq<Message>, touched: string, id: string)
    requires UniqueIds(next) && |current| <= |next| && id != touched
    requires forall i :: 0 <= i < |current| ==> next[i] == current[i] || (current[i].id == touched && next[i].id == touched)
    requires forall i :: |current| <= i < |next| ==> next[i].id == touched
    ensures Find(next, id) == Find(current, id)
  {
    var i := IndexOf(current, id);
    if i >= 0 {
      FindAt(next, i);
    }
  }

  lemma UpsertSetsMessage(current: seq<Message>, incoming: Message, id: string)
    requires UniqueIds(current) && incoming.role != User
    ensures Find(UpsertMessage(current, incoming), id) == if id == incoming.id then Some(incoming) else Find(current, id)
  {
    var next := UpsertMessage(current, incoming);
    UpsertKeepsTheRest(current, incoming);
    if id != incoming.id {
      SameMessage(current, next, incoming.id, id);
    }
    FindAt(next, if IndexOf(current, incoming.id) >= 0 then IndexOf(current, incoming.id) else |current|);
  }

  // An announced message starts empty and streaming, unless its deltas came
  // first.
  lemma MessageAfterAdded(current: seq<Message>, item: Option<Item>, id: string)
    requires UniqueIds(current)
    ensures Find(Apply(current, OutputItemAdded(item)), id) ==
      if item.Some? && item.value.kind == "message" && item.value.id == Some(id) && id != "" && Find(current, id).None? then
        Some(Message(id, Assistant, "", [], false, true))
      else Find(current, id)
  {
    if StubOf(item).Some? && IndexOf(current, StubOf(item).value.id) < 0 {
      UpsertSetsMessage(current, StubOf(item).value, id);
    }
  }

  // A delta goes to the message it names, or else to that of its item, and
  // starts one if there is none yet.
  lemma MessageAfterDelta(current: seq<Message>, itemId: Option<string>, item: Option<Item>, delta: string, id: string)
    requires UniqueIds(current)
    ensures var before, after := Find(current, id), Find(Apply(current, OutputTextDelta(itemId, item, Some(delta))), id);
      if delta == "" || id == "" then after == before
      else if itemId == Some(id) || (itemId in {None, Some("")} && item.Some? && item.value.id == Some(id)) then
        after == Some(match before
                      case None => Message(id, Assistant, delta, [], false, true)
                      case Some(m) => Message(id, m.role, m.text + delta, m.images, m.optimistic, true))
      else after == before
    ensures Apply(current, OutputTextDelta(itemId, item, None)) == current
  {
    var next, touched := Apply(current, OutputTextDelta(itemId, item, Some(delta))), ItemId(itemId, item);
    ApplyKeepsPlaces(current, OutputTextDelta(itemId, item, Some(delta)));
    if next != current {
      FindAt(next, if IndexOf(current, touched) >= 0 then IndexOf(current, touched) else |current|);
      if id != touched {
        SameMessage(current, next, touched, id);
      }
    }
  }

  // A finished item's own texts and images replace what was streamed.
  lemma MessageAfterDone(current: seq<Message>, item: Item, newId: string, id: string)
    requires UniqueIds(current)
    ensures var text, images := JoinTexts(item.content), ImagesOf(item.content);
      Find(Apply(current, OutputItemDone(Some(item), newId)), id) ==
        if item.kind == "message" && item.id in {Some(id), None} && (item.id.None? ==> id == newId) && (text != "" || images != []) then
          Some(Message(id, Assistant, text, images, false, false))
        else Find(current, id)
    ensures Apply(current, OutputItemDone(None, newId)) == current
  {
    var message := FinishedMessage(Some(item), newId);
    if message.Some? {
      UpsertSetsMessage(current, message.value, id);
    }
  }

  // The end of a response leaves every message in place and none streaming.
  lemma MessageAfterTheEnd(current: seq<Message>, id: string)
    ensures Ids(Apply(current, ResponseEnded)) == Ids(current)
    ensures Find(Apply(current, ResponseEnded), id) ==
      match Find(current, id)
      case None => None
      case Some(m) => Some(Message(id, m.role, m.text, m.images, m.optimistic, false))
  {
    var next := Apply(current, ResponseEnded);
    var i, j := IndexOf(current, id), IndexOf(next, id);
    assert i >= 0 ==> next[i].id == current[i].id;
    assert j >= 0 ==> next[j].id == current[j].id;
  }

  // White space by code point: the line terminators, the byte order mark and
  // the Unicode space separators.
  lemma JsSpaces(c: char)
    ensures IsJsSpace(c) <==>
      var n := c as int;
      n in {9, 10, 11, 12, 13, 32, 160, 5760, 8232, 8233, 8239, 8287, 12288, 65279} || 8192 <= n <= 8202
  {
  }

  // White space surrounds s[i..j].
  predicate SpaceAround(s: string, i: nat, j: nat) {
    i <= j <= |s| && (forall k :: 0 <= k < i ==> IsJsSpace(s[k])) && (forall k :: j <= k < |s| ==> IsJsSpace(s[k]))
  }

  lemma SpaceInFront(s: string, i: nat, j: nat)
    requires s != "" && IsJsSpace(s[0]) && SpaceAround(s[1..], i, j)
    ensures SpaceAround(s, i + 1, j + 1) && s[i + 1..j + 1] == s[1..][i..j]
  {
    assert forall k :: 0 < k < |s| ==> s[k] == s[1..][k - 1];
  }

  // What is left of a text has no white space at its ends, and only white
  // space around it was cut off.
  lemma {:induction false} JsTrimCutsTheEnds(s: string)
    ensures JsTrim(s) != "" ==> !IsJsSpace(JsTrim(s)[0]) && !IsJsSpace(JsTrim(s)[|JsTrim(s)| - 1])
    ensures exists i: nat, j: nat :: SpaceAround(s, i, j) && JsTrim(s) == s[i..j]
  {
    if s != "" && IsJsSpace(s[0]) {
      JsTrimCutsTheEnds(s[1..]);
      var i: nat, j: nat :| SpaceAround(s[1..], i, j) && JsTrim(s[1..]) == s[1..][i..j];
      SpaceInFront(s, i, j);
    } else if s != "" && IsJsSpace(s[|s| - 1]) {
      var init := s[..|s| - 1];
      JsTrimCutsTheEnds(init);
      var i: nat, j: nat :| SpaceAround(init, i, j) && JsTrim(init) == init[i..j];
      assert SpaceAround(s, i, j) && s[i..j] == init[i..j];
    } else {
      assert SpaceAround(s, 0, |s|);
    }
  }

  // Two texts set apart by a blank line, unless one of them is empty.
  function Apart(a: string, b: string): string {
    if a == "" then b else if b == "" then a else a + "\n\n" + b
  }

  lemma ApartIsAssociative(a: string, b: string, c: string)
    ensures Apart(Apart(a, b), c) == Apart(a, Apart(b, c))
  {
    assert (a + "\n\n" + b) + "\n\n" + c == a + "\n\n" + (b + "\n\n" + c);
  }

  // The texts of two stretches of content are set apart likewise.
  lemma {:induction false} TextsInOrder(front: seq<Part>, back: seq<Part>)
    ensures JoinTexts(front + back) == Apart(JoinTexts(front), JoinTexts(back))
    decreases |back|
  {
    if back == [] {
      assert front + back == front;
    } else {
      var init, last := back[..|back| - 1], back[|back| - 1];
      TextsInOrder(front, init);
      assert (front + back)[..|front + back| - 1] == front + init;
      var text := if last.kind == "output_text" then JsTrim(last.text) else "";
      assert JoinTexts(back) == Apart(JoinTexts(init), text);
      assert JoinTexts(front + back) == Apart(JoinTexts(front + init), text);
      ApartIsAssociative(JoinTexts(front), JoinTexts(init), text);
    }
  }

  // A single part gives its trimmed output text, or its image.
  lemma OnePart(part: Part)
    ensures JoinTexts([part]) == if part.kind == "output_text" then JsTrim(part.text) else ""
    ensures ImagesOf([part]) == if part.kind == "image_ref" && part.imageRef != "" then [part.imageRef] else []
  {
    assert [part][..0] == [];
  }

  // The images come in the order of their parts.
  lemma {:induction false} ImagesInOrder(front: seq<Part>, back: seq<Part>)
    ensures ImagesOf(front + back) == ImagesOf(front) + ImagesOf(back)
    decreases |back|
  {
    if back == [] {
      assert front + back == front;
    } else {
      ImagesInOrder(front, back[..|back| - 1]);
      assert (front + back)[..|front + back| - 1] == front + back[..|back| - 1];
    }
  }

  // ---------------------------------------------------------------------
  // Texts
  // ---------------------------------------------------------------------

  // What one event does to the text of one item.
  datatype Effect = Nothing | Append(delta: string) | Replace(text: string)

  function EffectOn(event: Event, id: string): Effect {
    match event
    case OutputTextDelta(itemId, item, delta) =>
      if delta.Some? && id != "" && ItemId(itemId, item) == id then Append(delta.value) else Nothing
    case OutputItemDone(item, newId) =>
      var message := FinishedMessage(item, newId);
      if message.Some? && message.value.id == id then Replace(message.value.text) else Nothing
    case _ => Nothing
  }

  // Index of the last finished text of an item, or -1.
  function LastDone(events: seq<Event>, id: string): (k: int)
    ensures -1 <= k < |events|
    ensures k >= 0 ==> EffectOn(events[k], id).Replace?
    ensures forall i :: k < i < |events| ==> !EffectOn(events[i], id).Replace?
  {
    if events == [] then -1
    else if EffectOn(events[|events| - 1], id).Replace? then |events| - 1
    else LastDone(events[..|events| - 1], id)
  }

  // The deltas of an item from event number `from` on, joined.
  function Deltas(events: seq<Event>, id: string, from: nat): string {
    if |events| <= from then ""
    else
      var before, effect := Deltas(events[..|events| - 1], id, from), EffectOn(events[|events| - 1], id);
      if effect.Append? then before + effect.delta else before
  }

  function ExpectedText(initial: string, events: seq<Event>, id: string): string {
    var k := LastDone(events, id);
    if k < 0 then initial + Deltas(events, id, 0)
    else EffectOn(events[k], id).text + Deltas(events, id, k + 1)
  }

  function TextOf(current: seq<Message>, id: string): string {
    match Find(current, id)
    case None => ""
    case Some(message) => message.text
  }

  lemma ApplyEffect(current: seq<Message>, event: Event, id: string)
    requires UniqueIds(current)
    ensures TextOf(Apply(current, event), id)
         == match EffectOn(event, id)
            case Nothing => TextOf(current, id)
            case Append(delta) => TextOf(current, id) + delta
            case Replace(text) => text
  {
    match event
    case OutputItemAdded(item) =>
      MessageAfterAdded(current, item, id);
    case OutputTextDelta(itemId, item, delta) =>
      if delta.Some? {
        MessageAfterDelta(current, itemId, item, delta.value, id);
      }
    case OutputItemDone(item, newId) =>
      if item.Some? {
        MessageAfterDone(current, item.value, newId, id);
      }
    case ResponseEnded =>
      MessageAfterTheEnd(current, id);
  }

  lemma ExpectedTextGrows(initial: string, events: seq<Event>, id: string)
    requires events != []
    ensures var before := ExpectedText(initial, events[..|events| - 1], id);
      ExpectedText(initial, events, id)
      == match EffectOn(events[|events| - 1], id)
         case Nothing => before
         case Append(delta) => before + delta
         case Replace(text) => text
  {
    var init := events[..|events| - 1];
    var k := LastDone(init, id);
    assert k >= 0 ==> init[k] == events[k];
  }

  // From a list with unique ids, after any interleaving of events: ids stay
  // unique, no message moves, and each item's text is its last finished text
  // followed by the deltas after it (or, with none finished, its first text
  // followed by every delta). Nothing else in the stream affects it.
  lemma {:induction false} TextsAfterAnyInterleaving(current: seq<Message>, events: seq<Event>, id: string)
    requires UniqueIds(current)
    ensures UniqueIds(ApplyAll(current, events))
    ensures Ids(current) <= Ids(ApplyAll(current, events))
    ensures TextOf(ApplyAll(current, events), id) == ExpectedText(TextOf(current, id), events, id)
  {
    if events != [] {
      var init, last := events[..|events| - 1], events[|events| - 1];
      TextsAfterAnyInterleaving(current, init, id);
      ApplyKeepsPlaces(ApplyAll(current, init), last);
      ApplyEffect(ApplyAll(current, init), last, id);
      ExpectedTextGrows(TextOf(current, id), events, id);
    }
  }

  lemma {:induction false} ExpectedTextIgnores(initial: string, before: seq<Event>, event: Event, after: seq<Event>, id: string)
    requires EffectOn(event, id) == Nothing
    ensures ExpectedText(initial, before + [event] + after, id) == ExpectedText(initial, before + after, id)
    decreases |after|
  {
    var longer, shorter := before + [event] + after, before + after;
    ExpectedTextGrows(initial, longer, id);
    if after == [] {
      assert longer[..|longer| - 1] == before && shorter == before;
    } else {
      var init := after[..|after| - 1];
      ExpectedTextIgnores(initial, before, event, init, id);
      ExpectedTextGrows(initial, shorter, id);
      assert longer[..|longer| - 1] == before + [event] + init;
      assert shorter[..|shorter| - 1] == before + init;
      assert longer[|longer| - 1] == shorter[|shorter| - 1];
    }
  }

  // An event without an effect on an item can be added or dropped anywhere in
  // the stream without changing the text the item ends up with: an
  // announcement after the first delta, or any event of another item.
  lemma UnrelatedEventChangesNothing(current: seq<Message>, before: seq<Event>, event: Event, after: seq<Event>, id: string)
    requires UniqueIds(current) && EffectOn(event, id) == Nothing
    ensures TextOf(ApplyAll(current, before + [event] + after), id) == TextOf(ApplyAll(current, before + after), id)
  {
    TextsAfterAnyInterleaving(current, before + [event] + after, id);
    TextsAfterAnyInterleaving(current, before + after, id);
    ExpectedTextIgnores(TextOf(current, id), before, event, after, id);
  }
}
