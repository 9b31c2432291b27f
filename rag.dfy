/**
  The retrieval-augmented chat service of services/rag.py: a registry of
  conversation histories keyed by session id, and the three fields (the
  language model, the retriever and the retrieval chain) that `build` binds
  to one vector store. The chains themselves are LangChain objects and are
  kept here as the values the service builds them from.
*/
module Rag {
  import opened Wrappers
  import opened VectorStore

  datatype Role = Human | Ai

  datatype Message = Message(role: Role, content: string)

  /** A ChatMessageHistory: the messages of one conversation, oldest first. */
  datatype History = History(messages: seq<Message>)

  /** `ChatMessageHistory()`. */
  const EmptyHistory: History := History([])

  /**
    What `build` reads from outside the service: API_URL and API_KEY from the
    environment, HISTORY_PROMPT and SYSTEM_PROMPT from config.py.
  */
  datatype Settings = Settings(apiUrl: string, apiKey: string, historyPrompt: string, systemPrompt: string)

  /** A ChatOpenAI client; an object, because every `build` creates a new one. */
  class ChatModel {
    const baseUrl: string
    const apiKey: string
    const streaming: bool

    constructor (baseUrl: string, apiKey: string, streaming: bool)
      ensures this.baseUrl == baseUrl && this.apiKey == apiKey && this.streaming == streaming
    {
      this.baseUrl := baseUrl;
      this.apiKey := apiKey;
      this.streaming := streaming;
    }
  }

  /** `ChatPromptTemplate.from_messages([("system", system), MessagesPlaceholder(historyKey), ("human", humanTemplate)])`. */
  datatype ChatPrompt = ChatPrompt(system: string, historyKey: string, humanTemplate: string)

  /** The prompt shape both chains use: a system text, the chat history, then the user's input. */
  function ConversationPrompt(system: string): ChatPrompt
  {
    ChatPrompt(system, "chat_history", "{input}")
  }

  /** `vectorstore.as_retriever()`. */
  datatype Retriever = VectorStoreRetriever(store: Chroma)

  /** `create_history_aware_retriever(llm, retriever, prompt)`. */
  datatype HistoryAwareRetriever = HistoryAwareRetriever(llm: ChatModel, retriever: Retriever, prompt: ChatPrompt)

  /** `create_stuff_documents_chain(llm, prompt)`. */
  datatype StuffDocumentsChain = StuffDocumentsChain(llm: ChatModel, prompt: ChatPrompt)

  /** `create_retrieval_chain(history_aware_retriever, qa_chain)`. */
  datatype RetrievalChain = RetrievalChain(retriever: HistoryAwareRetriever, combineDocs: StuffDocumentsChain)

  /** `chat` before any successful `build`: LangChain cannot wrap a missing chain and raises. */
  datatype ChatError = ChainNotBuilt

  /** The key of the streamed items `chat` passes on. */
  const AnswerKey: string := "answer"

  // ---------------------------------------------------------------- the answer filter

  /** What one streamed item contributes: its `'answer'` value, if it has one. */
  function AnswerOf<V>(token: map<string, V>): seq<V>
  {
    if AnswerKey in token then [token[AnswerKey]] else []
  }

  /** The `'answer'` values of the streamed items, in stream order; items without one are skipped. */
  function Answers<V>(stream: seq<map<string, V>>): (r: seq<V>)
    ensures |r| <= |stream|
    ensures (forall i | 0 <= i < |stream| :: AnswerKey !in stream[i]) ==> r == []
  {
    if stream == [] then [] else AnswerOf(stream[0]) + Answers(stream[1..])
  }

  /** Filtering a concatenation filters each part: the answers keep the order of the stream. */
  lemma {:induction false} AnswersAppend<V>(front: seq<map<string, V>>, back: seq<map<string, V>>)
    ensures Answers(front + back) == Answers(front) + Answers(back)
  {
    if front == [] {
      assert front + back == back;
    } else {
      var whole := front + back;
      assert whole[0] == front[0] && whole[1..] == front[1..] + back;
      calc {
        Answers(whole);
        AnswerOf(front[0]) + Answers(front[1..] + back);
        { AnswersAppend(front[1..], back); }
        AnswerOf(front[0]) + (Answers(front[1..]) + Answers(back));
        (AnswerOf(front[0]) + Answers(front[1..])) + Answers(back);
      }
    }
  }

  /** When every item carries an answer, the answers are exactly those values, position by position. */
  lemma {:induction false} AnswersOfAnsweredStream<V>(stream: seq<map<string, V>>)
    requires forall i | 0 <= i < |stream| :: AnswerKey in stream[i]
    ensures |Answers(stream)| == |stream|
    ensures forall i | 0 <= i < |stream| :: Answers(stream)[i] == stream[i][AnswerKey]
  {
    if stream != [] {
      AnswersOfAnsweredStream(stream[1..]);
    }
  }

  /** Every answer comes from some item of the stream. */
  lemma {:induction false} AnswersComeFromStream<V>(stream: seq<map<string, V>>, x: V)
    requires x in Answers(stream)
    ensures exists i | 0 <= i < |stream| :: AnswerKey in stream[i] && stream[i][AnswerKey] == x
  {
    if AnswerKey in stream[0] && stream[0][AnswerKey] == x {
      assert AnswerKey in stream[0];
    } else {
      AnswersComeFromStream(stream[1..], x);
      var i :| 0 <= i < |stream[1..]| && AnswerKey in stream[1..][i] && stream[1..][i][AnswerKey] == x;
      assert stream[i + 1] == stream[1..][i];
    }
  }

  /** The loop of `chat`: `for token in stream: if 'answer' in token: yield token['answer']`. */
  method StreamAnswers<V>(stream: seq<map<string, V>>) returns (answers: seq<V>)
    ensures answers == Answers(stream)
  {
    answers := [];
    var i := 0;
    while i < |stream|
      invariant 0 <= i <= |stream|
      invariant answers == Answers(stream[..i])
    {
      var token := stream[i];
      assert stream[..i + 1] == stream[..i] + [token];
      assert Answers([token]) == AnswerOf(token) by {
        assert [token][1..] == [];
      }
      AnswersAppend(stream[..i], [token]);
      if AnswerKey in token {
        answers := answers + [token[AnswerKey]];
      }
      i := i + 1;
    }
    assert stream[..i] == stream;
  }

  /** `_create_question_contextualizer`. */
  function QuestionContextualizer(llm: ChatModel, retriever: Retriever, historyPrompt: string): HistoryAwareRetriever
  {
    HistoryAwareRetriever(llm, retriever, ConversationPrompt(historyPrompt))
  }

  /** `_create_qa_chain`. */
  function QaChain(llm: ChatModel, systemPrompt: string): StuffDocumentsChain
  {
    StuffDocumentsChain(llm, ConversationPrompt(systemPrompt))
  }

  // ---------------------------------------------------------------- the service

  class RAGService {
    const vectorStore: VectorStoreService
    /** `self.sessions`: session id to history. */
    var sessions: map<string, History>
    var llm: Option<ChatModel>
    var retriever: Option<Retriever>
    var ragChain: Option<RetrievalChain>

    /** `__init__`: no session, nothing bound. */
    constructor (vectorStore: VectorStoreService)
      ensures this.vectorStore == vectorStore
      ensures sessions == map[]
      ensures llm == None && retriever == None && ragChain == None
    {
      this.vectorStore := vectorStore;
      sessions := map[];
      llm := None;
      retriever := None;
      ragChain := None;
    }

    /** `_get_session_history`: the stored history, or a new empty one stored first. */
    method GetSessionHistory(sessionId: string) returns (history: History)
      modifies this`sessions
      ensures sessionId in old(sessions) ==> history == old(sessions)[sessionId] && sessions == old(sessions)
      ensures sessionId !in old(sessions) ==> history == EmptyHistory
      ensures sessionId in sessions && sessions[sessionId] == history
      ensures sessions - {sessionId} == old(sessions) - {sessionId}
    {
      if sessionId !in sessions {
        sessions := sessions[sessionId := EmptyHistory];
      }
      history := sessions[sessionId];
    }

    /** `reset`: `sessions.pop(session_id, None)` — the entry goes, and an absent id changes nothing. */
    method Reset(sessionId: string)
      modifies this`sessions
      ensures sessions == old(sessions) - {sessionId}
      ensures sessionId !in old(sessions) ==> sessions == old(sessions)
    {
      sessions := sessions - {sessionId};
    }

    /** `_create_llm`: a new streaming client for API_URL and API_KEY. */
    method CreateLlm(settings: Settings)
      modifies this`llm
      ensures llm.Some? && fresh(llm.value)
      ensures llm.value.baseUrl == settings.apiUrl && llm.value.apiKey == settings.apiKey && llm.value.streaming
    {
      var model := new ChatModel(settings.apiUrl, settings.apiKey, true);
      llm := Some(model);
    }

    /** `_create_retriever`: raises what `vector_store.get` raises, and only then leaves `retriever` alone. */
    method CreateRetriever(storeName: PyValue) returns (r: Outcome<StoreError>)
      modifies this`retriever
      ensures r.Fail? ==> retriever == old(retriever)
      ensures !storeName.Str? ==> r == Fail(NameNotString)
      ensures storeName == Str("") ==> r == Fail(EmptyName)
      ensures storeName.Str? && storeName.s != "" && !IsDirectory(vectorStore.root, storeName.s) ==> r == Fail(StoreMissing(storeName))
      ensures storeName.Str? && storeName.s != "" && IsDirectory(vectorStore.root, storeName.s) ==>
                r == Pass && retriever == Some(VectorStoreRetriever(vectorStore.Handle(storeName.s)))
    {
      var store := vectorStore.Get(storeName);
      if store.Failure? {
        return Fail(store.error);
      }
      retriever := Some(VectorStoreRetriever(store.value));
      r := Pass;
    }

    /**
      `build`: replaces the language model first, then opens the store; when
      that raises, `retriever` and `rag_chain` keep their old values but `llm`
      is already new. The session histories are never touched.
    */
    method Build(storeName: PyValue, settings: Settings) returns (r: Outcome<StoreError>)
      modifies this`llm, this`retriever, this`ragChain
      ensures sessions == old(sessions)
      ensures llm.Some? && fresh(llm.value)
      ensures llm.value.baseUrl == settings.apiUrl && llm.value.apiKey == settings.apiKey && llm.value.streaming
      ensures r.Pass? <==> storeName.Str? && storeName.s != "" && IsDirectory(vectorStore.root, storeName.s)
      ensures !storeName.Str? ==> r == Fail(NameNotString)
      ensures storeName == Str("") ==> r == Fail(EmptyName)
      ensures storeName.Str? && storeName.s != "" && !IsDirectory(vectorStore.root, storeName.s) ==> r == Fail(StoreMissing(storeName))
      ensures r.Fail? ==> retriever == old(retriever) && ragChain == old(ragChain)
      ensures r.Pass? ==> retriever == Some(VectorStoreRetriever(vectorStore.Handle(storeName.s)))
      ensures r.Pass? ==> ragChain == Some(RetrievalChain(
                            HistoryAwareRetriever(llm.value, retriever.value, ConversationPrompt(settings.historyPrompt)),
                            StuffDocumentsChain(llm.value, ConversationPrompt(settings.systemPrompt))))
    {
      CreateLlm(settings);
      r := CreateRetriever(storeName);
      if r.Fail? {
        return;
      }
      var historyAwareRetriever := QuestionContextualizer(llm.value, retriever.value, settings.historyPrompt);
      var qaChain := QaChain(llm.value, settings.systemPrompt);
      ragChain := Some(RetrievalChain(historyAwareRetriever, qaChain));
    }

    /**
      `chat`: `stream` is what the history-wrapped retrieval chain streams for
      the question. The wrapper fetches the session's history through
      `_get_session_history`, so an unknown session gets an empty one; the
      caller receives exactly the `'answer'` values.
    */
    method Chat<V>(sessionId: string, question: string, stream: seq<map<string, V>>) returns (r: Result<seq<V>, ChatError>)
      modifies this`sessions
      ensures ragChain.None? ==> r == Failure(ChainNotBuilt) && sessions == old(sessions)
      ensures ragChain.Some? ==> r == Success(Answers(stream))
      ensures ragChain.Some? ==> sessionId in sessions && sessions - {sessionId} == old(sessions) - {sessionId}
    {
      if ragChain.None? {
        return Failure(ChainNotBuilt);
      }
      var history := GetSessionHistory(sessionId);
      var answers := StreamAnswers(stream);
      r := Success(answers);
    }

    /** `chat_async`: the same filter over the asynchronous stream; scheduling is not modelled. */
    method ChatAsync<V>(sessionId: string, question: string, stream: seq<map<string, V>>) returns (r: Result<seq<V>, ChatError>)
      modifies this`sessions
      ensures ragChain.None? ==> r == Failure(ChainNotBuilt) && sessions == old(sessions)
      ensures ragChain.Some? ==> r == Success(Answers(stream))
      ensures ragChain.Some? ==> sessionId in sessions && sessions - {sessionId} == old(sessions) - {sessionId}
    {
      r := Chat(sessionId, question, stream);
    }
  }
}
