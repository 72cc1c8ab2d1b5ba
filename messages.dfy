/** The message record as the API stores it and the frontend receives it. */
module Messages {

  /** One message: the id the API assigned, the submitted text, the creation
      time (an ISO-8601 string) and the name of the host that created it. */
  datatype Message = Message(id: int, text: string, timestamp: string, hostname: string)

  /** The API's id discipline: the record at position i has id i + 1, so
      the ids of a list are 1..n in list order. */
  predicate ConsecutiveIds(messages: seq<Message>)
  {
    forall i :: 0 <= i < |messages| ==> messages[i].id == i + 1
  }

  /** Consecutive ids are distinct, and an id locates its record. */
  lemma ConsecutiveIdsDistinct(messages: seq<Message>, i: int, j: int)
    requires ConsecutiveIds(messages)
    requires 0 <= i < |messages| && 0 <= j < |messages|
    ensures messages[i].id == messages[j].id <==> i == j
  {
  }
}
