/**
 * The knowledge-retrieval capability (app/services/rag_interface.py): two
 * operations, search and add, offered by two variants. The variants are the
 * constructors of one datatype rather than subclasses of an abstract class.
 */
module RagInterface {
  import opened Json

  /** `NoRag` is the no-op service; `QdrantRag` is the placeholder for a
      vector-search backend, which only simulates a search. */
  datatype RagService =
    | NoRag
    | QdrantRag(qdrantUrl: string, apiKey: Option<string>, collectionName: string)

  /** One retrieved chunk: `{"id", "payload": {"text"}, "score"}`. */
  datatype KbDoc = KbDoc(id: string, text: string, score: real)

  const DefaultTopK: int := 3

  /** The instance the relay uses. */
  const ActiveRagService: RagService := NoRag

  /** Documents listed from the best match to the worst. */
  predicate ScoreDescending(docs: seq<KbDoc>)
  {
    forall i, j :: 0 <= i < j < |docs| ==> docs[i].score >= docs[j].score
  }

  function SearchKnowledgeBase(svc: RagService, queryText: string, topK: int := DefaultTopK): (docs: seq<KbDoc>)
    ensures svc.NoRag? ==> docs == []
    ensures svc.QdrantRag? ==> |docs| == 2 && ScoreDescending(docs)
    ensures svc.QdrantRag? ==> docs[0] == KbDoc("doc1", "Información relevante 1 de Qdrant.", 0.9)
    ensures svc.QdrantRag? ==> docs[1] == KbDoc("doc2", "Otro dato importante 2 de Qdrant.", 0.85)
  {
    match svc
    case NoRag => []
    case QdrantRag(_, _, _) =>
      [KbDoc("doc1", "Información relevante 1 de Qdrant.", 0.9),
       KbDoc("doc2", "Otro dato importante 2 de Qdrant.", 0.85)]
  }

  /** `add_document`. The no-op service acknowledges without storing anything;
      the vector-search placeholder has no implementation of it (None). */
  function AddDocument(svc: RagService, documentText: string, metadata: Option<map<string, Json>>): (ack: Option<map<string, string>>)
    ensures svc.NoRag? ==> ack == Some(map["status" := "no_rag_service_active"])
    ensures svc.QdrantRag? ==> ack == None
  {
    match svc
    case NoRag => Some(map["status" := "no_rag_service_active"])
    case QdrantRag(_, _, _) => None
  }

  /** The active service never yields context, whatever is asked. */
  lemma ActiveServiceFindsNothing(queryText: string, topK: int)
    ensures SearchKnowledgeBase(ActiveRagService, queryText, topK) == []
  {
  }

  /** The placeholder search ignores its query and its limit: it returns two
      documents even when fewer were asked for. */
  lemma QdrantIgnoresQueryAndLimit(svc: RagService, q1: string, k1: int, q2: string, k2: int)
    requires svc.QdrantRag?
    ensures SearchKnowledgeBase(svc, q1, k1) == SearchKnowledgeBase(svc, q2, k2)
    ensures k1 < 2 ==> |SearchKnowledgeBase(svc, q1, k1)| > k1
  {
  }
}
