/** The API's in-memory message store: the module-level `messages` list with
    `create_message` (validate, assign the next id, append) and
    `get_messages` (the whole list and its count). */
module MessageStore {
  import opened Text
  import opened Messages

  const EmptyTextDetail := "Message text cannot be empty"
  const CreatedMessage := "Message created successfully"

  /** What POST /api/messages answers: the created record, or an HTTP error
      with its status code and detail. */
  datatype CreateResponse =
    | Created(message: string, data: Message)
    | HttpError(status: int, detail: string)

  /** What GET /api/messages answers. */
  datatype Listing = Listing(messages: seq<Message>, count: int, timestamp: string)

  /** The store after one create_message, and its response. */
  datatype CreateOutcome = CreateOutcome(store: seq<Message>, response: CreateResponse)

  /** create_message on a store: text that strips to nothing is refused with
      400 and the store is left alone; any other text is appended, exactly
      as submitted, under the id len(messages) + 1. The clock reading and
      the HOSTNAME variable are inputs. */
  function CreateStep(store: seq<Message>, text: string, now: string, hostname: string): (r: CreateOutcome)
    ensures r.response.HttpError? <==> IsBlank(text, PythonWhitespace)
    ensures r.response.HttpError? ==>
      r.store == store && r.response == HttpError(400, EmptyTextDetail)
    ensures r.response.Created? ==>
      r.store == store + [r.response.data] && r.response.message == CreatedMessage &&
      r.response.data == Message(|store| + 1, text, now, hostname)
  {
    StripEmptyIffBlank(text, PythonWhitespace);
    if text == [] || |Strip(text, PythonWhitespace)| == 0 then
      CreateOutcome(store, HttpError(400, EmptyTextDetail))
    else
      var record := Message(|store| + 1, text, now, hostname);
      CreateOutcome(store + [record], Created(CreatedMessage, record))
  }

  /** A create keeps the ids consecutive. */
  lemma CreatePreservesIds(store: seq<Message>, text: string, now: string, hostname: string)
    requires ConsecutiveIds(store)
    ensures ConsecutiveIds(CreateStep(store, text, now, hostname).store)
  {
  }

  /** Two creates handled at the same time, each reading the list's length
      before the other appends: both records get the same id, and the ids of
      the list are no longer 1..n. */
  lemma InterleavedCreatesShareId(store: seq<Message>, first: string, second: string, now: string, hostname: string)
    requires ConsecutiveIds(store)
    ensures var id := |store| + 1;
      var racy := store + [Message(id, first, now, hostname), Message(id, second, now, hostname)];
      racy[|store|].id == racy[|store| + 1].id && !ConsecutiveIds(racy)
  {
    var id := |store| + 1;
    var racy := store + [Message(id, first, now, hostname), Message(id, second, now, hostname)];
    assert racy[|store| + 1].id != |store| + 2;
  }

  /** A submission as the store sees it: text, clock reading, host name. */
  datatype Submission = Submission(text: string, now: string, hostname: string)

  /** The store after a series of create_message calls. */
  function Replay(store: seq<Message>, subs: seq<Submission>): seq<Message>
    decreases |subs|
  {
    if subs == [] then store
    else
      var s := subs[|subs| - 1];
      CreateStep(Replay(store, subs[..|subs| - 1]), s.text, s.now, s.hostname).store
  }

  /** The texts of the submissions the store accepts, in order. */
  function AcceptedTexts(subs: seq<Submission>): seq<string>
  {
    if subs == [] then []
    else if IsBlank(subs[|subs| - 1].text, PythonWhitespace) then AcceptedTexts(subs[..|subs| - 1])
    else AcceptedTexts(subs[..|subs| - 1]) + [subs[|subs| - 1].text]
  }

  /** Starting from the empty store, after any series of creates the store
      holds exactly the accepted texts, unstripped and in submission order,
      under the ids 1..n. */
  lemma {:induction false} ReplayFromEmpty(subs: seq<Submission>)
    ensures ConsecutiveIds(Replay([], subs))
    ensures |Replay([], subs)| == |AcceptedTexts(subs)|
    ensures forall i :: 0 <= i < |Replay([], subs)| ==> Replay([], subs)[i].text == AcceptedTexts(subs)[i]
  {
    if subs != [] {
      var init := subs[..|subs| - 1];
      ReplayFromEmpty(init);
      CreatePreservesIds(Replay([], init), subs[|subs| - 1].text, subs[|subs| - 1].now, subs[|subs| - 1].hostname);
    }
  }

  /** The module-level `messages` list of the API process. */
  class Store {
    var messages: seq<Message>

    ghost predicate Valid()
      reads this
    {
      ConsecutiveIds(messages)
    }

    constructor ()
      ensures Valid() && messages == []
    {
      messages := [];
    }

    /** POST /api/messages. */
    method Create(text: string, now: string, hostname: string) returns (response: CreateResponse)
      requires Valid()
      modifies this
      ensures Valid()
      ensures CreateOutcome(messages, response) == CreateStep(old(messages), text, now, hostname)
    {
      if text == [] || |Strip(text, PythonWhitespace)| == 0 {
        response := HttpError(400, EmptyTextDetail);
        return;
      }
      var record := Message(|messages| + 1, text, now, hostname);
      messages := messages + [record];
      response := Created(CreatedMessage, record);
      CreatePreservesIds(old(messages), text, now, hostname);
    }

    /** GET /api/messages: the whole store, oldest first, and its size; the
        store itself is not touched (the method modifies nothing). */
    method List(now: string) returns (listing: Listing)
      ensures listing.messages == messages && listing.count == |messages|
      ensures listing.timestamp == now
    {
      listing := Listing(messages, |messages|, now);
    }
  }
}
