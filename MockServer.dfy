// The in-memory ("mock database") branch of the backend: appointment and
// medication records kept in two arrays, created, listed, updated and deleted
// by a numeric id, and the keyword fallback of the chat endpoint.

module MockServer {
  import opened Common
  import opened Text

  /** The JSON values the model represents: strings, integers, booleans and
      null. Arrays, nested objects and fractional numbers are not among them. */
  datatype Value = Str(s: string) | Num(n: int) | Bool(b: bool) | Null

  /** A stored record: a JSON object. */
  type Record = map<string, Value>

  /** `record.id === id`: strict equality, so only a number id can match. */
  predicate HasId(r: Record, id: int) {
    "id" in r && r["id"] == Num(id)
  }

  /** `{ ...body, id: store.length + 1 }`: the body's fields with the id
      derived from the current length, replacing any id the body carries. */
  function WithId(body: Record, store: seq<Record>): (r: Record)
    ensures HasId(r, |store| + 1)
    ensures r.Keys == body.Keys + {"id"}
    ensures forall k :: k in body && k != "id" ==> r[k] == body[k]
  {
    body["id" := Num(|store| + 1)]
  }

  /** `store.findIndex(r => r.id === id)` where id is the result of
      `parseInt`, None standing for NaN (which equals nothing). */
  function FindById(store: seq<Record>, id: Option<int>): (r: Option<nat>)
    ensures r.Some? ==> id.Some? && r.value < |store| && HasId(store[r.value], id.value)
    ensures r.Some? ==> forall j :: 0 <= j < r.value ==> !HasId(store[j], id.value)
    ensures r.None? <==> id.None? || forall j :: 0 <= j < |store| ==> !HasId(store[j], id.value)
  {
    if id.None? || store == [] then None
    else if HasId(store[0], id.value) then Some(0)
    else match FindById(store[1..], id)
      case None => None
      case Some(k) => Some(k + 1)
  }

  /** `splice(index, 1)`. */
  function RemoveAt(store: seq<Record>, index: nat): (r: seq<Record>)
    requires index < |store|
    ensures |r| == |store| - 1
    ensures forall j :: 0 <= j < index ==> r[j] == store[j]
    ensures forall j :: index <= j < |r| ==> r[j] == store[j + 1]
  {
    store[..index] + store[index + 1..]
  }

  /** `{ ...stored, ...body }`: the body's fields override, the others stay. */
  function Merge(stored: Record, body: Record): (r: Record)
    ensures r.Keys == stored.Keys + body.Keys
    ensures forall k :: k in body ==> r[k] == body[k]
    ensures forall k :: k in stored && k !in body ==> r[k] == stored[k]
  {
    stored + body
  }

  /** Deleting by id takes out exactly one record, the first with that id,
      and keeps every other record. */
  lemma DeleteKeepsOthers(store: seq<Record>, id: int)
    requires FindById(store, Some(id)).Some?
    ensures var i := FindById(store, Some(id)).value;
      multiset(RemoveAt(store, i)) + multiset{store[i]} == multiset(store)
  {
    var i := FindById(store, Some(id)).value;
    var before, after := store[..i], store[i + 1..];
    assert store == before + [store[i]] + after;
    assert RemoveAt(store, i) == before + after;
    calc {
      multiset(store);
      multiset(before + [store[i]]) + multiset(after);
      multiset(before) + multiset{store[i]} + multiset(after);
    }
  }

  /** Ids come from the length, not from a counter: after two creations and
      the deletion of the first record, the next creation reuses id 2, and a
      later deletion of id 2 removes only the older record. */
  lemma {:induction false} IdsCanRepeat(a: Record, b: Record, c: Record)
    ensures var s1 := [WithId(a, [])];
            var s2 := s1 + [WithId(b, s1)];
            var s3 := RemoveAt(s2, FindById(s2, Some(1)).value);
            var s4 := s3 + [WithId(c, s3)];
            |s4| == 2 && HasId(s4[0], 2) && HasId(s4[1], 2)
            && FindById(s4, Some(2)) == Some(0)
            && RemoveAt(s4, 0) == [s4[1]]
  {
    var s1 := [WithId(a, [])];
    var s2 := s1 + [WithId(b, s1)];
    assert HasId(s2[0], 1);
    assert FindById(s2, Some(1)) == Some(0);
  }

  datatype Outcome = Done | NotFound

  class MockDb {
    var appointments: seq<Record>
    var medications: seq<Record>

    constructor ()
      ensures appointments == [] && medications == []
    {
      appointments := [];
      medications := [];
    }

    /** POST /api/appointments */
    method CreateAppointment(body: Record) returns (created: Record)
      modifies this
      ensures created == WithId(body, old(appointments))
      ensures appointments == old(appointments) + [created]
      ensures medications == old(medications)
    {
      created := WithId(body, appointments);
      appointments := appointments + [created];
    }

    /** GET /api/appointments */
    method ListAppointments() returns (list: seq<Record>)
      ensures list == appointments
    {
      list := appointments;
    }

    /** DELETE /api/appointments/:id */
    method DeleteAppointment(id: Option<int>) returns (outcome: Outcome)
      modifies this
      ensures medications == old(medications)
      ensures match FindById(old(appointments), id)
        case Some(i) => outcome == Done && appointments == RemoveAt(old(appointments), i)
        case None => outcome == NotFound && appointments == old(appointments)
    {
      var index := FindById(appointments, id);
      if index.Some? {
        appointments := RemoveAt(appointments, index.value);
        outcome := Done;
      } else {
        outcome := NotFound;
      }
    }

    /** POST /api/medications */
    method CreateMedication(body: Record) returns (created: Record)
      modifies this
      ensures created == WithId(body, old(medications))
      ensures medications == old(medications) + [created]
      ensures appointments == old(appointments)
    {
      created := WithId(body, medications);
      medications := medications + [created];
    }

    /** GET /api/medications */
    method ListMedications() returns (list: seq<Record>)
      ensures list == medications
    {
      list := medications;
    }

    /** PUT /api/medications/:id: the first record with the id is replaced by
        its merge with the body, which it also returns. */
    method UpdateMedication(id: Option<int>, body: Record) returns (updated: Option<Record>)
      modifies this
      ensures appointments == old(appointments)
      ensures |medications| == |old(medications)|
      ensures match FindById(old(medications), id)
        case Some(i) =>
          && updated == Some(Merge(old(medications)[i], body))
          && medications == old(medications)[i := updated.value]
        case None => updated == None && medications == old(medications)
    {
      var index := FindById(medications, id);
      if index.Some? {
        var merged := Merge(medications[index.value], body);
        medications := medications[index.value := merged];
        updated := Some(merged);
      } else {
        updated := None;
      }
    }

    /** DELETE /api/medications/:id */
    method DeleteMedication(id: Option<int>) returns (outcome: Outcome)
      modifies this
      ensures appointments == old(appointments)
      ensures match FindById(old(medications), id)
        case Some(i) => outcome == Done && medications == RemoveAt(old(medications), i)
        case None => outcome == NotFound && medications == old(medications)
    {
      var index := FindById(medications, id);
      if index.Some? {
        medications := RemoveAt(medications, index.value);
        outcome := Done;
      } else {
        outcome := NotFound;
      }
    }
  }

  // ---------------------------------------------------------------------
  // POST /api/chat

  datatype ChatError = MessageRequired

  datatype ChatResult = Reply(text: string) | Rejected(error: ChatError)

  const DefaultReply: string :=
    "I'm here to help with health-related questions. Could you provide more details about what you'd like to know?"

  /** The fallback table, in the order the keys are searched. */
  const FallbackTable: seq<Entry> := [
    Entry("medication", "It's essential to take your medications as prescribed. If you're experiencing side effects, please consult with your doctor before making any changes."),
    Entry("pain", "For minor pain, you might try a warm compress or gentle stretching. If pain persists, please consult with your healthcare provider."),
    Entry("sleep", "Establishing a regular sleep schedule can help improve sleep quality. Try avoiding screens before bedtime and create a comfortable sleep environment."),
    Entry("hello", "Hello! How are you feeling today? Is there something specific I can help you with?"),
    Entry("hi", "Hi there! How can I assist you with your health needs today?"),
    Entry("appointment", "I can help you schedule an appointment with your doctor. Would you like me to do that for you?"),
    Entry("medicine", "Regular medication intake is crucial for managing chronic conditions. Is there a specific medication you'd like to know more about?"),
    Entry("exercise", "Regular exercise is beneficial for seniors. Even light activities like walking or gentle stretching can improve mobility and overall health."),
    Entry("diet", "A balanced diet rich in fruits, vegetables, and whole grains is essential for maintaining good health in older adults."),
    Entry("memory", "Memory exercises and staying mentally active can help maintain cognitive function. Activities like puzzles, reading, or learning new skills are great options.")
  ]

  /** The chat endpoint. `message` is None when the body has none; `upstream`
      is the language model's answer, None when that call fails. */
  function Chat(message: Option<string>, upstream: Option<string>): (r: ChatResult)
    ensures r.Rejected? <==> message.None? || message.value == ""
    ensures r.Reply? && upstream.Some? ==> r.text == upstream.value
    ensures r.Reply? && upstream.None? ==>
      r.text == KeywordReply(FallbackTable, DefaultReply, ToLower(message.value))
  {
    if message.None? || message.value == "" then Rejected(MessageRequired)
    else if upstream.Some? then Reply(upstream.value)
    else Reply(KeywordReply(FallbackTable, DefaultReply, ToLower(message.value)))
  }

  /** Without the model, a message naming both medication and pain gets the
      medication reply: the first key in table order wins. */
  lemma FallbackFirstMatch(message: string)
    requires Includes(ToLower(message), "medication")
    ensures Chat(Some(message), None) == Reply(FallbackTable[0].reply)
  {
  }

  /** Without the model, a message with none of the keys gets the default. */
  lemma FallbackDefault(message: string)
    requires message != []
    requires forall k :: 0 <= k < |FallbackTable| ==> !Includes(ToLower(message), FallbackTable[k].key)
    ensures Chat(Some(message), None) == Reply(DefaultReply)
  {
  }
}
