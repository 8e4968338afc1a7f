/** `RedisChatMessageStore` of the third-party history sample: a thread's
    chat history kept as one Redis list under `key_prefix:thread_id`,
    optionally trimmed to the newest `max_messages` entries. Every
    operation is a pure transformer of the store's configuration and of
    the in-memory Redis server. Message (de)serialisation to JSON is an
    abstract pair of functions. */
module ChatStore {
  import opened Base
  import opened RedisList

  /** The default namespace of the store's keys. */
  const DefaultKeyPrefix := "chat_messages"

  /** Generated thread ids are this prefix followed by a fresh UUID. */
  const ThreadIdPrefix := "thread_"

  const MissingUrlMessage := "redis_url is required for Redis connection"

  /** The store's configuration (the Redis password is handed to the
      connection only and is not kept). */
  datatype Store = Store(redisUrl: string, threadId: string, keyPrefix: string, maxMessages: Option<int>)

  datatype StoreError = ValueError(message: string) | ValidationError

  /** The persisted configuration of a store. */
  datatype RedisStoreState = RedisStoreState(
    threadId: string,
    redisUrl: Option<string>,
    keyPrefix: string,
    maxMessages: Option<int>,
    redisPsw: Option<string>)

  /** A serialized state as `deserialize_state` meets it: a falsy value
      (`None`, an empty mapping), one that fails validation, or a valid one. */
  datatype SerializedState = Falsy | Malformed | Valid(state: RedisStoreState)

  /** Python truthiness of an optional string. */
  predicate Truthy(s: Option<string>)
  {
    s.Some? && s.value != ""
  }

  /** The constructor. A missing URL is rejected; a missing or empty thread
      id is replaced by a generated one built from `uuid`. */
  function New(redisUrl: Option<string>, threadId: Option<string>, keyPrefix: string,
               maxMessages: Option<int>, uuid: string): (r: Result<Store, StoreError>)
    ensures r.Err? <==> redisUrl.None?
    ensures r.Err? ==> r.error == ValueError(MissingUrlMessage)
    ensures r.Ok? ==>
              && r.value.redisUrl == redisUrl.value
              && r.value.keyPrefix == keyPrefix
              && r.value.maxMessages == maxMessages
    ensures r.Ok? && Truthy(threadId) ==> r.value.threadId == threadId.value
    ensures r.Ok? && !Truthy(threadId) ==> r.value.threadId == ThreadIdPrefix + uuid
    ensures r.Ok? ==> r.value.threadId != ""
  {
    if redisUrl.None? then Err(ValueError(MissingUrlMessage))
    else
      var tid := if Truthy(threadId) then threadId.value else ThreadIdPrefix + uuid;
      Ok(Store(redisUrl.value, tid, keyPrefix, maxMessages))
  }

  /** The key of this thread's list: the prefix, a colon, the thread id. */
  function RedisKey(s: Store): (key: string)
    ensures |key| == |s.keyPrefix| + 1 + |s.threadId|
    ensures key[..|s.keyPrefix|] == s.keyPrefix
    ensures key[|s.keyPrefix|] == ':'
    ensures key[|s.keyPrefix| + 1..] == s.threadId
  {
    s.keyPrefix + ":" + s.threadId
  }

  /** Within one prefix, two stores share a list exactly when they share a
      thread id. */
  lemma KeysSeparateThreads(a: Store, b: Store)
    requires a.keyPrefix == b.keyPrefix
    ensures RedisKey(a) == RedisKey(b) <==> a.threadId == b.threadId
  {
    if RedisKey(a) == RedisKey(b) {
      assert a.threadId == RedisKey(a)[|a.keyPrefix| + 1..];
      assert b.threadId == RedisKey(b)[|b.keyPrefix| + 1..];
    }
  }

  /** `add_messages`: nothing happens for no messages; otherwise the
      serialized messages are pushed to the tail of the thread's list and,
      when a limit is set and exceeded, the list is trimmed with
      `LTRIM key -max_messages -1`. */
  function AddMessages(s: Store, db: Db, ser: ChatMessage -> string, messages: seq<ChatMessage>): (r: Db)
    ensures |messages| == 0 ==> r == db
  {
    if |messages| == 0 then db
    else ApplyLimit(RPush(db, RedisKey(s), MapSeq(ser, messages)), RedisKey(s), s.maxMessages)
  }

  /** The trimming step of `add_messages`: with a limit `m` and more than
      `m` entries, `LTRIM key -m -1`. Without a limit, or within it, nothing
      changes; a positive limit `m` leaves the newest `min(len, m)` entries. */
  function ApplyLimit(db: Db, key: string, limit: Option<int>): (r: Db)
    ensures limit.None? ==> r == db
    ensures limit.Some? && LLen(db, key) <= limit.value ==> r == db
    ensures limit.Some? && limit.value > 0 ==> Get(r, key) == Newest(Get(db, key), limit.value)
  {
    match limit
    case None => db
    case Some(m) =>
      if LLen(db, key) > m then
        if m > 0 then LTrimKeepsNewest(db, key, m); LTrim(db, key, -m, -1)
        else LTrim(db, key, -m, -1)
      else db
  }

  /** `add_messages` touches only the thread's own key, and like Redis
      never leaves an empty list behind. */
  lemma AddTouchesOnlyThread(s: Store, db: Db, ser: ChatMessage -> string, messages: seq<ChatMessage>)
    ensures AgreeExcept(db, AddMessages(s, db, ser, messages), RedisKey(s))
    ensures NoEmptyLists(db) ==> NoEmptyLists(AddMessages(s, db, ser, messages))
  {
    if |messages| > 0 {
      var key := RedisKey(s);
      var pushed := RPush(db, key, MapSeq(ser, messages));
      match s.maxMessages
      case None =>
      case Some(m) =>
        if LLen(pushed, key) > m {
          var trimmed := LTrim(pushed, key, -m, -1);
          assert AgreeExcept(db, trimmed, key);
        }
    }
  }

  /** Without a limit the thread's list grows by the serialized messages, in
      the order given. */
  lemma AddUnbounded(s: Store, db: Db, ser: ChatMessage -> string, messages: seq<ChatMessage>)
    requires s.maxMessages.None?
    ensures Get(AddMessages(s, db, ser, messages), RedisKey(s)) == Get(db, RedisKey(s)) + MapSeq(ser, messages)
  {
  }

  /** With a positive limit `m`, adding at least one message leaves the
      newest `min(len, m)` entries of the old list followed by the new
      messages. (Adding none leaves the list alone, even one longer than
      `m` because the limit was lowered by restoring a state.) */
  lemma AddBounded(s: Store, db: Db, ser: ChatMessage -> string, messages: seq<ChatMessage>)
    requires s.maxMessages.Some? && s.maxMessages.value > 0
    requires |messages| > 0
    ensures Get(AddMessages(s, db, ser, messages), RedisKey(s))
         == Newest(Get(db, RedisKey(s)) + MapSeq(ser, messages), s.maxMessages.value)
  {
  }

  /** Hence, with a positive limit `m`, the thread's list is never longer
      than `m`, is a tail of everything pushed so far (order kept) and ends
      with the newest message. */
  lemma AddBoundedKeepsNewest(s: Store, db: Db, ser: ChatMessage -> string, messages: seq<ChatMessage>)
    requires s.maxMessages.Some? && s.maxMessages.value > 0
    requires |messages| > 0
    ensures var after := Get(AddMessages(s, db, ser, messages), RedisKey(s));
            var all := Get(db, RedisKey(s)) + MapSeq(ser, messages);
            && 0 < |after| <= s.maxMessages.value
            && after == all[|all| - |after|..]
            && after[|after| - 1] == ser(messages[|messages| - 1])
  {
    var all := Get(db, RedisKey(s)) + MapSeq(ser, messages);
    AddBounded(s, db, ser, messages);
    NewestIsTail(all, s.maxMessages.value);
    assert all[|all| - 1] == ser(messages[|messages| - 1]);
  }

  /** A limit of zero or below does not bound the list: `LTRIM key -m -1`
      then starts at the non-negative index `-m`, so the oldest `-m`
      entries are dropped and, for `m = 0`, nothing is. */
  lemma AddNonPositiveLimit(s: Store, db: Db, ser: ChatMessage -> string, messages: seq<ChatMessage>)
    requires s.maxMessages.Some? && s.maxMessages.value <= 0
    requires |messages| > 0
    ensures var all := Get(db, RedisKey(s)) + MapSeq(ser, messages);
            var drop := -s.maxMessages.value;
            Get(AddMessages(s, db, ser, messages), RedisKey(s)) == if drop < |all| then all[drop..] else []
  {
    var key := RedisKey(s);
    var pushed := RPush(db, key, MapSeq(ser, messages));
    assert LLen(pushed, key) > s.maxMessages.value;
    LTrimDropsOldest(pushed, key, -s.maxMessages.value);
  }

  /** The corner case of a zero limit: every message is kept, exactly as
      without a limit. */
  lemma ZeroLimitKeepsEverything(s: Store, db: Db, ser: ChatMessage -> string, messages: seq<ChatMessage>)
    requires s.maxMessages == Some(0)
    ensures Get(AddMessages(s, db, ser, messages), RedisKey(s)) == Get(db, RedisKey(s)) + MapSeq(ser, messages)
  {
    if |messages| > 0 {
      AddNonPositiveLimit(s, db, ser, messages);
    }
  }

  /** Every entry of `stored` deserializes. */
  predicate AllDecode(de: string -> Option<ChatMessage>, stored: seq<string>)
  {
    forall i :: 0 <= i < |stored| ==> de(stored[i]).Some?
  }

  /** `list_messages`: every entry of the thread's list, oldest first,
      deserialized; an entry that does not deserialize makes the call raise
      the decoding error. */
  method ListMessages(s: Store, db: Db, de: string -> Option<ChatMessage>)
    returns (r: Result<seq<ChatMessage>, StoreError>)
    ensures r.Ok? <==> AllDecode(de, Get(db, RedisKey(s)))
    ensures r.Ok? ==> |r.value| == LLen(db, RedisKey(s))
    ensures r.Ok? ==> forall i :: 0 <= i < |r.value| ==> de(Get(db, RedisKey(s))[i]) == Some(r.value[i])
    ensures r.Err? ==> r.error == ValidationError
  {
    var stored := LRange(db, RedisKey(s), 0, -1);
    LRangeAll(db, RedisKey(s));
    var messages := [];
    for i := 0 to |stored|
      invariant |messages| == i
      invariant forall j :: 0 <= j < i ==> de(stored[j]) == Some(messages[j])
    {
      match de(stored[i])
      case None =>
        assert !de(stored[i]).Some?;
        return Err(ValidationError);
      case Some(msg) =>
        messages := messages + [msg];
    }
    r := Ok(messages);
  }

  /** `clear`: the thread's list is deleted and nothing else changes. */
  function Clear(s: Store, db: Db): (r: Db)
    ensures Get(r, RedisKey(s)) == []
    ensures AgreeExcept(db, r, RedisKey(s))
  {
    Del(db, RedisKey(s))
  }

  /** Repeated `add_messages` calls, one per batch, in order. */
  function AddBatches(s: Store, db: Db, ser: ChatMessage -> string, batches: seq<seq<ChatMessage>>): Db
    decreases |batches|
  {
    if |batches| == 0 then db
    else AddBatches(s, AddMessages(s, db, ser, batches[0]), ser, batches[1..])
  }

  /** All batches, one after the other. */
  function Flatten(batches: seq<seq<ChatMessage>>): (r: seq<ChatMessage>)
  {
    if |batches| == 0 then [] else batches[0] + Flatten(batches[1..])
  }

  /** Without a limit, the thread's list after a series of appends is the
      old list followed by every serialized message in call order. */
  lemma {:induction false} AddBatchesUnbounded(s: Store, db: Db, ser: ChatMessage -> string,
                                               batches: seq<seq<ChatMessage>>)
    requires s.maxMessages.None?
    ensures Get(AddBatches(s, db, ser, batches), RedisKey(s)) == Get(db, RedisKey(s)) + MapSeq(ser, Flatten(batches))
    decreases |batches|
  {
    var key := RedisKey(s);
    if |batches| == 0 {
      assert MapSeq(ser, Flatten(batches)) == [];
    } else {
      var db1 := AddMessages(s, db, ser, batches[0]);
      var rest := Flatten(batches[1..]);
      assert AddBatches(s, db, ser, batches) == AddBatches(s, db1, ser, batches[1..]);
      assert Flatten(batches) == batches[0] + rest;
      AddUnbounded(s, db, ser, batches[0]);
      AddBatchesUnbounded(s, db1, ser, batches[1..]);
      MapSeqAppend(ser, batches[0], rest);
      var before, head, tail := Get(db, key), MapSeq(ser, batches[0]), MapSeq(ser, rest);
      assert Get(db1, key) == before + head;
      AppendAssociative(before, head, tail);
    }
  }

  /** An unbounded thread that started empty holds, after a series of adds,
      entries that all deserialize, one per appended message and in call
      order, when deserializing undoes serializing. With `ListMessages` this
      means listing returns exactly the appended messages. */
  lemma {:induction false} ListAfterAppends(s: Store, db: Db, ser: ChatMessage -> string,
                                            de: string -> Option<ChatMessage>, batches: seq<seq<ChatMessage>>)
    requires s.maxMessages.None?
    requires RedisKey(s) !in db
    requires forall msg :: de(ser(msg)) == Some(msg)
    ensures var stored := Get(AddBatches(s, db, ser, batches), RedisKey(s));
            && AllDecode(de, stored)
            && |stored| == |Flatten(batches)|
            && forall i :: 0 <= i < |stored| ==> de(stored[i]) == Some(Flatten(batches)[i])
  {
    AddBatchesUnbounded(s, db, ser, batches);
    assert Get(db, RedisKey(s)) == [];
    assert Get(AddBatches(s, db, ser, batches), RedisKey(s)) == MapSeq(ser, Flatten(batches));
  }

  /** `deserialize_state`: a falsy state changes nothing; an invalid one
      raises; a valid one replaces the thread id, the key prefix and the
      limit, and replaces the URL only with a non-empty one that differs. */
  function DeserializeState(s: Store, serialized: SerializedState): (r: Result<Store, StoreError>)
    ensures serialized.Falsy? ==> r == Ok(s)
    ensures serialized.Malformed? ==> r == Err(ValidationError)
    ensures serialized.Valid? ==>
              && r.Ok?
              && r.value.threadId == serialized.state.threadId
              && r.value.keyPrefix == serialized.state.keyPrefix
              && r.value.maxMessages == serialized.state.maxMessages
    ensures serialized.Valid? && Truthy(serialized.state.redisUrl) ==>
              r.value.redisUrl == serialized.state.redisUrl.value
    ensures serialized.Valid? && !Truthy(serialized.state.redisUrl) ==> r.value.redisUrl == s.redisUrl
  {
    match serialized
    case Falsy => Ok(s)
    case Malformed => Err(ValidationError)
    case Valid(st) =>
      var url := if Truthy(st.redisUrl) && st.redisUrl.value != s.redisUrl then st.redisUrl.value else s.redisUrl;
      Ok(Store(url, st.threadId, st.keyPrefix, st.maxMessages))
  }

  /** The store the history sample's factory builds (only a URL and a limit
      of 100; the default prefix, a generated thread id) writes under
      `chat_messages:thread_<uuid>` and keeps the newest 100 messages. */
  lemma FactoryStore(url: string, uuid: string)
    ensures New(Some(url), None, DefaultKeyPrefix, Some(100), uuid)
         == Ok(Store(url, ThreadIdPrefix + uuid, DefaultKeyPrefix, Some(100)))
    ensures RedisKey(New(Some(url), None, DefaultKeyPrefix, Some(100), uuid).value) == "chat_messages:thread_" + uuid
  {
  }

  /** Restoring a state points the store at the restored thread's list. */
  lemma RestoreRetargetsKey(s: Store, st: RedisStoreState)
    ensures RedisKey(DeserializeState(s, Valid(st)).value) == st.keyPrefix + ":" + st.threadId
  {
  }

  /** Restoring the same state twice is the same as restoring it once. */
  lemma RestoreIdempotent(s: Store, serialized: SerializedState)
    requires DeserializeState(s, serialized).Ok?
    ensures DeserializeState(DeserializeState(s, serialized).value, serialized) == DeserializeState(s, serialized)
  {
  }
}
