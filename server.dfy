/**
 * The decisions the MCP tool server makes around its vector store: the
 * `echo`, `context_retriever`, `enter_data` and `get_collection_data_count`
 * tools and the `convert` and `track_context_history` prompts.
 *
 * The store is the map from collection name to the `add` calls the
 * collection has received; a collection's count is the number of ids added
 * to it. The dataset loader and the similarity search are parameters; the
 * search yields the text `str` gives of its result, or the text of its error.
 */
module Server {
  import opened Wrappers
  import opened Text
  import opened Transcript
  import opened Ingestion
  import opened PyRepr

  type Store = map<string, seq<Batch>>

  const DefaultContextCount := 3
  const DefaultCollection := "complete_collection"
  const UnknownError := "Tool failed to execute " + "due to some unknown error. Please try again."
  /** The message of the `KeyError` raised when the loader's result has no `data`. */
  const MissingData := "'data'"

  /** `collection.count()` */
  function Count(store: Store, name: string): nat
    requires name in store
  {
    |AllIds(store[name])|
  }

  /** `get_or_create_collection(name)`: an absent collection is created empty; nothing else changes. */
  function GetOrCreate(store: Store, name: string): (s: Store)
    ensures name in s && s.Keys == store.Keys + {name}
    ensures name in store ==> s == store
    ensures name !in store ==> Count(s, name) == 0
    ensures forall n :: n in store ==> s[n] == store[n]
  {
    if name in store then store else store[name := []]
  }

  /** The dictionary `get_huggingface_data` returns: a status code, a message and, on success, the dataset. */
  datatype LoadResult = LoadResult(statusCode: int, message: string, data: Option<map<string, seq<Row>>>)

  /** The two dictionaries the loader can return: 200 with the dataset, or 503 with the error's text. */
  predicate LoaderResult(load: LoadResult) {
    (load.statusCode == 200 && load.message == "data loaded successfully" && load.data.Some?)
    || (load.statusCode == 503 && load.data.None?)
  }

  /** `echo(message)` */
  function Echo(message: string): (r: string)
    ensures |r| == |message| + 6 && r[..6] == "Echo: " && r[6..] == message
  {
    "Echo: " + message
  }

  /** The message is recoverable from the echo. */
  lemma EchoInjective(m1: string, m2: string)
    requires Echo(m1) == Echo(m2)
    ensures m1 == m2
  {
    assert m1 == Echo(m1)[6..];
  }

  /** The branch `enter_data_to_new_collection` takes, which decides its reply. */
  datatype EnterOutcome =
    | Stored
    | AlreadyFilled(count: nat)
    | LoadFailed(message: string)
    | UnknownStatus
    | Raised(error: string)

  const StoredReply := "Successfully loaded data into collection "
  const SizeReply := " already contains data of size "
  const LoadFailedReply := "Failed to load huggingface data due to "
  const RaisedReply := "Error occured due to "

  /** The reply of `enter_data` for each outcome. */
  function EnterReply(name: string, o: EnterOutcome): string {
    match o
    case Stored => StoredReply + name
    case AlreadyFilled(n) => name + SizeReply + IntToString(n) + "."
    case LoadFailed(m) => LoadFailedReply + m + "."
    case UnknownStatus => UnknownError
    case Raised(e) => RaisedReply + e
  }

  /** Each reply gives back what it reports: the size, the loader's message or the exception's text. */
  lemma EnterReplyPayload(name: string, n1: nat, n2: nat, m1: string, m2: string)
    ensures EnterReply(name, AlreadyFilled(n1)) == EnterReply(name, AlreadyFilled(n2)) ==> n1 == n2
    ensures EnterReply(name, LoadFailed(m1)) == EnterReply(name, LoadFailed(m2)) ==> m1 == m2
    ensures EnterReply(name, Raised(m1)) == EnterReply(name, Raised(m2)) ==> m1 == m2
  {
    if EnterReply(name, AlreadyFilled(n1)) == EnterReply(name, AlreadyFilled(n2)) {
      AffixCancel(name + SizeReply, IntToString(n1), IntToString(n2), ".");
      IntToStringInjective(n1, n2);
    }
    if EnterReply(name, LoadFailed(m1)) == EnterReply(name, LoadFailed(m2)) {
      AffixCancel(LoadFailedReply, m1, m2, ".");
    }
    if EnterReply(name, Raised(m1)) == EnterReply(name, Raised(m2)) {
      assert RaisedReply + m1 + "" == RaisedReply + m1 && RaisedReply + m2 + "" == RaisedReply + m2;
      AffixCancel(RaisedReply, m1, m2, "");
    }
  }

  /**
   * A reply that starts with a name without spaces, then a space and an `a`,
   * differs from one whose first space, at `k`, is not followed by an `a`.
   */
  lemma NamedReplyDiffers(name: string, a: string, r: string, k: nat)
    requires ' ' !in name && |name| + 2 <= |a| && a[..|name|] == name && a[|name|] == ' ' && a[|name| + 1] == 'a'
    requires k + 2 <= |r| && ' ' !in r[..k] && r[k] == ' ' && r[k + 1] != 'a'
    ensures a != r
  {
    if |name| < k {
      assert r[..k][|name|] == r[|name|];
      assert a[|name|] != r[|name|];
    } else if |name| > k {
      assert a[..|name|][k] == a[k];
      assert a[k] != r[k];
    } else {
      assert a[k + 1] != r[k + 1];
    }
  }

  /** A fixed text keeps its first characters when more is appended to it. */
  lemma StartKept(lit: string, x: string, k: nat)
    requires k + 2 <= |lit|
    ensures (lit + x)[..k] == lit[..k] && (lit + x)[k] == lit[k] && (lit + x)[k + 1] == lit[k + 1] && (lit + x)[0] == lit[0]
  {
  }

  /** The first space of a fixed reply text is at `k`, and no `a` follows it. */
  predicate FirstSpaceAt(lit: string, k: nat) {
    k + 2 <= |lit| && ' ' !in lit[..k] && lit[k] == ' ' && lit[k + 1] != 'a'
  }

  lemma StoredFirstSpace() ensures FirstSpaceAt(StoredReply, 12) {}
  lemma LoadFailedFirstSpace() ensures FirstSpaceAt(LoadFailedReply, 6) {}
  lemma UnknownFirstSpace() ensures FirstSpaceAt(UnknownError, 4) {}
  lemma RaisedFirstSpace() ensures FirstSpaceAt(RaisedReply, 5) {}

  /** Every reply but the size reply has a first space, at `k`, that is not followed by an `a`. */
  lemma FixedReplyStart(name: string, o: EnterOutcome) returns (k: nat)
    requires !o.AlreadyFilled?
    ensures var r := EnterReply(name, o); k + 2 <= |r| && ' ' !in r[..k] && r[k] == ' ' && r[k + 1] != 'a'
  {
    match o
    case Stored =>
      k := 12;
      StoredFirstSpace();
      StartKept(StoredReply, name, k);
    case LoadFailed(m) =>
      k := 6;
      LoadFailedFirstSpace();
      StartKept(LoadFailedReply, m, k);
      StartKept(LoadFailedReply + m, ".", k);
    case UnknownStatus =>
      k := 4;
      UnknownFirstSpace();
    case Raised(e) =>
      k := 5;
      RaisedFirstSpace();
      StartKept(RaisedReply, e, k);
  }

  /** The first character of every reply but the size reply, which tells their kinds apart. */
  function Initial(o: EnterOutcome): char
    requires !o.AlreadyFilled?
  {
    match o
    case Stored => 'S'
    case LoadFailed(_) => 'F'
    case UnknownStatus => 'T'
    case Raised(_) => 'E'
  }

  lemma InitialStarts(name: string, o: EnterOutcome)
    requires !o.AlreadyFilled?
    ensures |EnterReply(name, o)| > 0 && EnterReply(name, o)[0] == Initial(o)
  {
    match o
    case Stored => StartKept(StoredReply, name, 0);
    case LoadFailed(m) => StartKept(LoadFailedReply, m, 0); StartKept(LoadFailedReply + m, ".", 0);
    case UnknownStatus =>
    case Raised(e) => StartKept(RaisedReply, e, 0);
  }

  /** The size reply of a collection whose name has no spaces differs from every other kind of reply. */
  lemma AlreadyFilledDiffers(name: string, n: nat, o: EnterOutcome)
    requires ' ' !in name && !o.AlreadyFilled?
    ensures EnterReply(name, AlreadyFilled(n)) != EnterReply(name, o)
  {
    var a := EnterReply(name, AlreadyFilled(n));
    assert a[..|name|] == name && a[|name|] == ' ' && a[|name| + 1] == 'a';
    var k := FixedReplyStart(name, o);
    NamedReplyDiffers(name, a, EnterReply(name, o), k);
  }

  /**
   * For a collection name without spaces, such as the default one, the reply
   * tells the outcomes apart: different outcomes give different replies.
   */
  lemma EnterRepliesDistinct(name: string, o1: EnterOutcome, o2: EnterOutcome)
    requires ' ' !in name && o1 != o2
    ensures EnterReply(name, o1) != EnterReply(name, o2)
  {
    if o1.AlreadyFilled? && o2.AlreadyFilled? {
      EnterReplyPayload(name, o1.count, o2.count, "", "");
    } else if o1.AlreadyFilled? {
      AlreadyFilledDiffers(name, o1.count, o2);
    } else if o2.AlreadyFilled? {
      AlreadyFilledDiffers(name, o2.count, o1);
    } else if o1.LoadFailed? && o2.LoadFailed? {
      EnterReplyPayload(name, 0, 0, o1.message, o2.message);
    } else if o1.Raised? && o2.Raised? {
      EnterReplyPayload(name, 0, 0, o1.error, o2.error);
    } else {
      InitialStarts(name, o1);
      InitialStarts(name, o2);
    }
  }

  /**
   * `enter_data_to_new_collection(name)`: its outcome and the store afterwards.
   * The collection is created if absent; data is stored only into an empty
   * collection and only when the loader succeeded, and an exception raised
   * while storing is caught and reported.
   */
  function EnterData(store: Store, name: string, load: LoadResult): (r: (EnterOutcome, Store))
    ensures r.1.Keys == store.Keys + {name}
    ensures forall n :: n in r.1 && n != name ==> r.1[n] == store[n]
    ensures r.0.Stored? <==>
      Count(GetOrCreate(store, name), name) == 0 && load.statusCode == 200 && load.data.Some? && "test" in load.data.value
    ensures r.0.Stored? ==> r.1[name] == GetOrCreate(store, name)[name] + RowBatches(load.data.value["test"])
    ensures !r.0.Stored? ==> r.1 == GetOrCreate(store, name)
  {
    var s := GetOrCreate(store, name);
    var count := Count(s, name);
    if count == 0 && load.statusCode == 200 then
      match load.data
      case None => (Raised(MissingData), s)
      case Some(data) =>
        if "test" !in data then (Raised(MissingSplit), s)
        else (Stored, s[name := s[name] + RowBatches(data["test"])])
    else if count > 0 then (AlreadyFilled(count), s)
    else if load.statusCode == 503 then (LoadFailed(load.message), s)
    else (UnknownStatus, s)
  }

  lemma {:induction false} AllIdsAppend(a: seq<Batch>, b: seq<Batch>)
    ensures AllIds(a + b) == AllIds(a) + AllIds(b)
  {
    if a != [] {
      assert (a + b)[1..] == a[1..] + b;
      AllIdsAppend(a[1..], b);
    } else {
      assert a + b == b;
    }
  }
  /**
   * The outcomes of `enter_data`: into an empty collection with a successful
   * load, the `test` rows are stored, one id per row; a non-empty collection
   * reports its size and is left alone, whatever the loader said; an empty
   * one reports the loader's 503 message, or the unknown error; a 200 without
   * data, or data without a `test` split, raises a `KeyError` that is reported.
   */
  lemma EnterDataOutcomes(store: Store, name: string, load: LoadResult)
    ensures var s := GetOrCreate(store, name); var r := EnterData(store, name, load);
      && (Count(s, name) == 0 && load.statusCode == 200 && load.data.Some? && "test" in load.data.value ==>
            r.0 == Stored && Count(r.1, name) == |load.data.value["test"]|)
      && (Count(s, name) == 0 && load.statusCode == 200 && load.data.None? ==> r == (Raised(MissingData), s))
      && (Count(s, name) == 0 && load.statusCode == 200 && load.data.Some? && "test" !in load.data.value ==>
            r == (Raised(MissingSplit), s))
      && (Count(s, name) > 0 ==> r == (AlreadyFilled(Count(s, name)), s))
      && (Count(s, name) == 0 && load.statusCode == 503 ==> r == (LoadFailed(load.message), s))
      && (Count(s, name) == 0 && load.statusCode != 200 && load.statusCode != 503 ==> r == (UnknownStatus, s))
  {
    var s := GetOrCreate(store, name);
    if Count(s, name) == 0 && load.statusCode == 200 && load.data.Some? && "test" in load.data.value {
      var rows := load.data.value["test"];
      AllIdsAppend(s[name], RowBatches(rows));
      RowBatchesAddEachRowOnce(rows);
    }
  }

  /** The loader never returns any status but 200 and 503, so the unknown-error reply cannot occur. */
  lemma EnterDataKnownStatus(store: Store, name: string, load: LoadResult)
    requires LoaderResult(load)
    ensures !EnterData(store, name, load).0.UnknownStatus?
    ensures EnterData(store, name, load).0.Raised? ==> EnterData(store, name, load).0.error == MissingSplit
  {
  }

  /**
   * The text `enter_data` answers in each branch: the success line naming
   * the collection, its name and size, the loader's 503 message, the caught
   * `KeyError`, or the unknown error.
   */
  lemma EnterDataReplies(store: Store, name: string, load: LoadResult)
    ensures var s := GetOrCreate(store, name); var reply := EnterReply(name, EnterData(store, name, load).0);
      && (Count(s, name) == 0 && load.statusCode == 200 && load.data.Some? && "test" in load.data.value ==>
            reply == StoredReply + name)
      && (Count(s, name) > 0 ==> reply == name + SizeReply + IntToString(Count(s, name)) + ".")
      && (Count(s, name) == 0 && load.statusCode == 503 ==> reply == LoadFailedReply + load.message + ".")
      && (Count(s, name) == 0 && load.statusCode == 200 && load.data.None? ==> reply == RaisedReply + MissingData)
      && (Count(s, name) == 0 && load.statusCode == 200 && load.data.Some? && "test" !in load.data.value ==>
            reply == RaisedReply + MissingSplit)
      && (Count(s, name) == 0 && load.statusCode != 200 && load.statusCode != 503 ==> reply == UnknownError)
  {
    EnterDataOutcomes(store, name, load);
  }

  /** Entering data twice stores it once: the second call finds the rows and reports their number. */
  lemma EnterDataTwice(store: Store, name: string, load: LoadResult, load': LoadResult)
    requires name !in store && load.statusCode == 200 && load.data.Some? && "test" in load.data.value
    requires load.data.value["test"] != []
    ensures var first := EnterData(store, name, load).1;
      EnterData(first, name, load') == (AlreadyFilled(|load.data.value["test"]|), first)
  {
    EnterDataOutcomes(store, name, load);
  }

  /** The reply `context_retriever` builds from the search result. */
  function SearchReply(result: Result<string, string>): string {
    match result
    case Success(found) => "Query results are : \n " + found
    case Failure(e) => "error message : " + e
  }

  /**
   * `retrieve_relevant_context(query, k, name)`: the collection is created if
   * absent and seeded with `enter_data` when it is empty; then `search` runs
   * on the collection as it now stands, and its error becomes the reply.
   */
  function RetrieveRelevantContext(store: Store, query: string, k: int, name: string, load: LoadResult,
                                   search: (seq<Batch>, string, int) -> Result<string, string>): (r: (string, Store))
    ensures name in r.1
    ensures r.0 == SearchReply(search(r.1[name], query, k))
  {
    var s := GetOrCreate(store, name);
    var seeded := if Count(s, name) == 0 then EnterData(s, name, load).1 else s;
    (SearchReply(search(seeded[name], query, k)), seeded)
  }

  /** The tool's defaults: three results from `complete_collection`. */
  function RetrieveWithDefaults(store: Store, query: string, load: LoadResult,
                                search: (seq<Batch>, string, int) -> Result<string, string>): (r: (string, Store))
    ensures DefaultCollection in r.1
    ensures r.0 == SearchReply(search(r.1[DefaultCollection], query, 3))
  {
    RetrieveRelevantContext(store, query, DefaultContextCount, DefaultCollection, load, search)
  }

  /** A collection that holds data is searched as it is; an empty or absent one is seeded first. */
  lemma RetrieveSeedsOnlyEmpty(store: Store, query: string, k: int, name: string, load: LoadResult,
                               search: (seq<Batch>, string, int) -> Result<string, string>)
    ensures var r := RetrieveRelevantContext(store, query, k, name, load, search);
      && (name in store && Count(store, name) > 0 ==> r.1 == store)
      && (name !in store || Count(store, name) == 0 ==> r.1 == EnterData(store, name, load).1)
  {
  }

  /** `name.strip().replace(" ", "")` */
  function NormalizeCollectionName(name: string): (n: string)
    ensures ' ' !in n
    ensures forall c :: c in n ==> c in name
  {
    RemoveAll(Strip(name), ' ')
  }

  /** Normalising a normalised name changes nothing. */
  lemma NormalizeCollectionNameIdempotent(name: string)
    ensures NormalizeCollectionName(NormalizeCollectionName(name)) == NormalizeCollectionName(name)
  {
    var st := Strip(name);
    var n := RemoveAll(st, ' ');
    if st != [] {
      if n != [] {
        assert st[0] != ' ' && st[|st| - 1] != ' ';
        RemoveAllKeepsEnds(st, ' ');
      }
    }
    StripUnchanged(n);
    RemoveAllAbsent(n, ' ');
  }

  /**
   * `get_collection_data_count(name)`: the count of the collection the
   * normalised name denotes; `get_collection` raises for a name that is not
   * in the store, and the failure carries the name looked up.
   */
  function GetCollectionDataCount(store: Store, name: string): (r: Result<nat, string>)
    ensures r.Success? <==> NormalizeCollectionName(name) in store
    ensures r.Success? ==> r.value == Count(store, NormalizeCollectionName(name))
    ensures r.Failure? ==> r.error == NormalizeCollectionName(name)
  {
    var n := NormalizeCollectionName(name);
    if n in store then Success(Count(store, n)) else Failure(n)
  }

  /** Names differing only in spaces and surrounding whitespace reach the same collection. */
  lemma CountIgnoresSpaces(store: Store, name: string)
    ensures GetCollectionDataCount(store, NormalizeCollectionName(name)) == GetCollectionDataCount(store, name)
  {
    NormalizeCollectionNameIdempotent(name);
  }

  const SystemPrompt := "You are a helpful assistant skilled at using vector data to formulate human readable responses to user queries. Also make sure to keep track of previous conversation history for follow up responses."

  /** The user message of the `convert` prompt. */
  function ContextRequest(vectorData: string): string {
    "use the following data for additional context:\n " + vectorData + ", discard unneccesary meatadata."
  }

  function RoleMessage(role: string, content: string): Json {
    JObj([("role", JStr(role)), ("content", JStr(content))])
  }

  /** `convert_to_NLP(vector_data)`: `str` of the system message and the user message, in that order. */
  function ConvertToNlp(vectorData: string): string {
    JsonRepr(JArr([RoleMessage("system", SystemPrompt), RoleMessage("user", ContextRequest(vectorData))]))
  }

  /** The prompt text is the fixed system part followed by the quoted user content and the closing brackets. */
  function ConvertPrefix(): string {
    "[" + JsonRepr(RoleMessage("system", SystemPrompt)) + ", "
      + ("{" + (StrRepr("role") + ": " + StrRepr("user")) + ", " + (StrRepr("content") + ": "))
  }

  lemma Regroup(x: string, p: string, q: string, s: string)
    ensures x + (p + (q + s) + "}") + "]" == x + (p + q) + s + "}]"
  {
  }

  lemma ConvertShape(vectorData: string)
    ensures ConvertToNlp(vectorData) == ConvertPrefix() + StrRepr(ContextRequest(vectorData)) + "}]"
  {
    var c := ContextRequest(vectorData);
    var sys := RoleMessage("system", SystemPrompt);
    ArrReprPair(sys, RoleMessage("user", c));
    ObjReprPair("role", "user", "content", c);
    Regroup("[" + JsonRepr(sys) + ", ", "{" + (StrRepr("role") + ": " + StrRepr("user")) + ", ", StrRepr("content") + ": ", StrRepr(c));
  }

  /** A fixed prefix and suffix can be cancelled. */
  lemma AffixCancel(p: string, x: string, y: string, s: string)
    requires p + x + s == p + y + s
    ensures x == y
  {
    assert |x| == |y|;
    assert x == (p + x + s)[|p|..|p| + |x|];
    assert y == (p + y + s)[|p|..|p| + |y|];
  }

  /** Different vector data give different prompts: the data is carried whole in the user message. */
  lemma ConvertKeepsVectorData(v1: string, v2: string)
    requires ConvertToNlp(v1) == ConvertToNlp(v2)
    ensures v1 == v2
  {
    ConvertShape(v1);
    ConvertShape(v2);
    AffixCancel(ConvertPrefix(), StrRepr(ContextRequest(v1)), StrRepr(ContextRequest(v2)), "}]");
    StrReprInjective(ContextRequest(v1), ContextRequest(v2));
    AffixCancel("use the following data for additional context:\n ", v1, v2, ", discard unneccesary meatadata.");
  }

  /** The default argument of `convert_to_NLP`. */
  const DefaultVectorData := "placeholder data"

  /** `convert_to_NLP()` called without an argument. */
  function ConvertWithDefault(): (r: string)
    ensures r == ConvertPrefix() + StrRepr(ContextRequest(DefaultVectorData)) + "}]"
  {
    ConvertShape(DefaultVectorData);
    ConvertToNlp(DefaultVectorData)
  }

  /** The prompt without an argument is the one for `"placeholder data"` and for no other vector data. */
  lemma ConvertDefaultIsPlaceholder(v: string)
    ensures ConvertToNlp(v) == ConvertWithDefault() <==> v == DefaultVectorData
  {
    var d := ConvertToNlp(DefaultVectorData);
    assert ConvertWithDefault() == d;
    if ConvertToNlp(v) == d {
      ConvertKeepsVectorData(v, DefaultVectorData);
    }
  }

  const HistoryInstruction := "Within the collection 'contextual_data', refer to the role of 'user' for previous user queries, and 'assistant' for previous LLM responses."
  const HistoryAcknowledgement := "I will use the current and previous conversation query to provide an appropriate response."

  /** `fetch_conversation_history(query)`: the instruction, the query, the assistant's acknowledgement. */
  function FetchConversationHistory(query: string): (r: seq<Message>)
    ensures |r| == 3
    ensures r[0].role == User && r[1].role == User && r[2].role == Assistant
    ensures r[1] == UserQuery(query)
  {
    [UserQuery(HistoryInstruction), UserQuery(query), AssistantText(HistoryAcknowledgement)]
  }

  /** Only the middle message depends on the query. */
  lemma HistoryFrameFixed(q1: string, q2: string)
    ensures FetchConversationHistory(q1)[0] == FetchConversationHistory(q2)[0]
    ensures FetchConversationHistory(q1)[2] == FetchConversationHistory(q2)[2]
    ensures FetchConversationHistory(q1) == FetchConversationHistory(q2) <==> q1 == q2
  {
    if FetchConversationHistory(q1) == FetchConversationHistory(q2) {
      assert FetchConversationHistory(q1)[1].content.s == q1;
    }
  }
}
