/**
 * The two handlers of back/routes/csv_routes.py over in-memory stores: the
 * uploaded rows (the `csv_uploads` collection), the query history (the
 * `query_history` collection) and the vector store of back/qdrant_utils.py.
 * `upload_csv` replaces the rows with a parsed CSV; `query_csv` aggregates
 * the rows, retrieves similar past exchanges, builds the prompt, asks the
 * generator, and records the answer.
 */
module CsvRoutes {
  import opened Wrappers
  import opened Errors
  import opened Text
  import opened Analytics
  import VectorStore

  // ---------------------------------------------------------------------------
  // Constants of the handlers

  const CsvContentType := "text/csv"
  const BadFormatDetail := "Formato file non valido. Carica un file CSV."
  const EmptyFileDetail := "Il file CSV \U{E8} vuoto."
  const ParseErrorPrefix := "Errore durante il parsing del CSV: "
  const EmptyRecordsDetail := "CSV vuoto o non valido"
  const NoCsvDetail := "Nessun dato CSV caricato."
  const EmptyOutputDetail := "Output del modello AI vuoto."
  const NoContextPlaceholder := "Nessuna conversazione simile."
  /** `df.head(50)`. */
  const SampleSize := 50

  // ---------------------------------------------------------------------------
  // `stats_text` (lines 88-91)

  /** A float64 as an f-string renders it; infinities and NaN have fixed spellings. */
  function ShareText(p: Pandas, s: Share): string {
    match s
    case Finite(v) => p.str(v)
    case PosInf => "inf"
    case NegInf => "-inf"
    case NaN => "nan"
  }

  /** `"<year>: <sales> milioni, <pct>%"` for an already rounded entry. */
  function EntryLine(p: Pandas, e: StatEntry): string {
    IntToString(e.year) + ": " + p.str(e.sales) + " milioni, " + ShareText(p, e.percentage) + "%"
  }

  /** One line of `stats_text`: sales rounded once, the percentage rounded once (line 86). */
  function StatLine(p: Pandas, s: YearStat): string {
    EntryLine(p, StatEntry(s.year, p.round2(s.sales), RoundShare(p, s.share)))
  }

  function StatLines(p: Pandas, kept: seq<Sale>): (lines: seq<string>)
    ensures |lines| == |YearsOf(kept)|
  {
    var stats := YearStats(kept);
    seq(|stats|, i requires 0 <= i < |stats| => StatLine(p, stats[i]))
  }

  function StatsText(p: Pandas, kept: seq<Sale>): string {
    Join(StatLines(p, kept), "\n")
  }

  lemma IntToStringNoNewline(n: int)
    ensures '\n' !in IntToString(n)
  {
    var r := IntToString(n);
    forall i | 0 <= i < |r| ensures r[i] != '\n' {
      if n < 0 && i > 0 {
        assert r[i] == r[1..][i - 1];
      }
    }
  }

  lemma StatLineNoNewline(p: Pandas, s: YearStat)
    requires forall x :: '\n' !in p.str(x)
    ensures '\n' !in StatLine(p, s)
  {
    IntToStringNoNewline(s.year);
  }

  /**
   * `stats_text` is empty when no row survives the filter; otherwise splitting
   * it at newlines gives back exactly one line per aggregated year, in the
   * aggregation's ascending order (as long as the number rendering itself
   * writes no newline).
   */
  lemma StatsTextLines(p: Pandas, kept: seq<Sale>)
    requires forall x :: '\n' !in p.str(x)
    ensures kept == [] ==> StatsText(p, kept) == ""
    ensures kept != [] ==>
      var stats := YearStats(kept);
      && Split(StatsText(p, kept), '\n') == StatLines(p, kept)
      && |StatLines(p, kept)| == |stats|
      && forall i :: 0 <= i < |stats| ==> StatLines(p, kept)[i] == StatLine(p, stats[i])
  {
    var lines := StatLines(p, kept);
    var stats := YearStats(kept);
    if kept == [] {
      assert YearsOf(kept) == {};
    } else {
      assert kept[0].year in YearsOf(kept);
      forall i | 0 <= i < |lines| ensures '\n' !in lines[i] {
        StatLineNoNewline(p, stats[i]);
      }
      SplitJoin(lines, '\n');
    }
  }

  lemma RoundShareTwice(p: Pandas, s: Share)
    requires forall x :: p.round2(p.round2(x)) == p.round2(x)
    ensures RoundShare(p, RoundShare(p, s)) == RoundShare(p, s)
  {
  }

  /**
   * Lines 88-91 set beside back/routes/statistics.py: the stats text of a query
   * renders, line by line and in the same order, the entries the statistics
   * endpoint returns for the same rows. The endpoint rounds the percentage a
   * second time, which changes nothing when rounding is idempotent.
   */
  lemma StatsTextAgreesWithEndpoint(p: Pandas, rows: seq<Row>)
    requires rows != [] && MissingColumn(rows).None?
    requires forall x :: p.round2(p.round2(x)) == p.round2(x)
    ensures var s := SalesStatsByYear(p, rows).stats;
            var lines := StatLines(p, Kept(p, rows));
            && |lines| == |s|
            && forall i :: 0 <= i < |s| ==> lines[i] == EntryLine(p, s[i])
  {
    var kept := Kept(p, rows);
    var stats := YearStats(kept);
    var s := SalesStatsByYear(p, rows).stats;
    assert |s| == |stats|;
    forall i | 0 <= i < |s| ensures StatLines(p, kept)[i] == EntryLine(p, s[i]) {
      RoundShareTwice(p, stats[i].share);
    }
  }

  // ---------------------------------------------------------------------------
  // The similar-context fallback (lines 94-95) and the sample (line 98)

  /** `"\n".join(lines) or "Nessuna conversazione simile."` */
  function ContextText(lines: seq<string>): string {
    var joined := Join(lines, "\n");
    if joined == "" then NoContextPlaceholder else joined
  }

  /** The placeholder stands in exactly when the search found nothing. */
  lemma ContextPlaceholderIff(hits: seq<VectorStore.Record>)
    ensures ContextText(VectorStore.FormatHits(hits)) == NoContextPlaceholder <==> hits == []
    ensures hits != [] ==> ContextText(VectorStore.FormatHits(hits)) == Join(VectorStore.FormatHits(hits), "\n")
  {
    var lines := VectorStore.FormatHits(hits);
    if hits != [] {
      var joined := Join(lines, "\n");
      assert lines[0] == VectorStore.FormatHit(hits[0]);
      if |lines| == 1 {
        assert joined[0] == 'Q';
      } else {
        assert joined == lines[0] + "\n" + Join(lines[1..], "\n");
        assert joined[0] == lines[0][0] == 'Q';
      }
      assert NoContextPlaceholder[0] == 'N';
    }
  }

  /** `df.head(50)` of the filtered frame. */
  function Sample(kept: seq<Sale>): (r: seq<Sale>)
    ensures |r| == if |kept| < SampleSize then |kept| else SampleSize
    ensures r == kept[..|r|]
  {
    if |kept| < SampleSize then kept else kept[..SampleSize]
  }

  // ---------------------------------------------------------------------------
  // The prompt (lines 100-119)

  /** The prompt's opening lines, one constant per line of the template. */
  const IntroLine0 := "Sei un assistente intelligente specializzato nell'analisi di dati CSV.\n"
  const IntroLine1 := "Il tuo compito \U{E8} rispondere alla domanda dell'utente basandoti sui dati forniti. \n"
  const IntroLine2 := "Utilizza anche il contesto di domande precedenti se rilevanti.\n"
  const IntroLine3 := "Se l'informazione richiesta non \U{E8} presente nel dataset o non pu\U{F2} essere dedotta,\n"
  const IntroLine4 := "dichiara chiaramente che non puoi fornire la risposta basandoti sui dati disponibili.\n"
  const IntroLine5 := "Rispondi in modo conciso, diretto e professionale.\n"
  const IntroLine6 := "\n"
  const IntroLine7 := "\U{1F9E0} Domande simili:\n"
  const Intro := IntroLine0 + IntroLine1 + IntroLine2 + IntroLine3 + IntroLine4 + IntroLine5 + IntroLine6 + IntroLine7
  const StatsHeader := "\n\n\U{1F4CA} Statistiche vendite per anno:\n"
  const SampleHeader := "\n\n\U{1F4C4} Campione del dataset:\n"
  const QuestionLabel := "\n\nDomanda attuale: "
  const AnswerCue := "\n\nRisposta:\n"

  function Prompt(context: string, stats: string, sample: string, question: string): string {
    Intro + context + StatsHeader + stats + SampleHeader + sample + QuestionLabel + question + AnswerCue
  }

  /** `x` occurs in `r` starting at index `i`. */
  predicate At(r: string, i: nat, x: string) {
    i + |x| <= |r| && r[i..i + |x|] == x
  }

  lemma Piece(a: string, x: string, b: string)
    ensures At(a + x + b, |a|, x)
  {
    assert (a + x + b)[|a|..|a| + |x|] == x;
  }

  /**
   * The prompt holds the context, the stats text, the sample and the literal
   * question, in this order, each right after its header; the question follows
   * "Domanda attuale: ", and the answer cue starts right where the question
   * ends and closes the prompt.
   */
  lemma PromptLayout(context: string, stats: string, sample: string, question: string)
    ensures var r := Prompt(context, stats, sample, question);
            && At(r, 0, Intro)
            && At(r, |Intro|, context)
            && At(r, |Intro + context|, StatsHeader + stats)
            && At(r, |Intro + context + StatsHeader + stats|, SampleHeader + sample)
            && At(r, |Intro + context + StatsHeader + stats + SampleHeader + sample|, QuestionLabel + question)
            && var before := Intro + context + StatsHeader + stats + SampleHeader + sample + QuestionLabel + question;
               At(r, |before|, AnswerCue) && |r| == |before| + |AnswerCue|
  {
    Layout(Intro, context, StatsHeader, stats, SampleHeader, sample, QuestionLabel, question, AnswerCue);
  }

  /** Where each piece of a nine-piece concatenation starts; the last piece ends the string. */
  lemma Layout(h0: string, x0: string, h1: string, x1: string, h2: string, x2: string,
               h3: string, x3: string, h4: string)
    ensures var r := h0 + x0 + h1 + x1 + h2 + x2 + h3 + x3 + h4;
            && At(r, 0, h0)
            && At(r, |h0|, x0)
            && At(r, |h0 + x0|, h1 + x1)
            && At(r, |h0 + x0 + h1 + x1|, h2 + x2)
            && At(r, |h0 + x0 + h1 + x1 + h2 + x2|, h3 + x3)
            && At(r, |h0 + x0 + h1 + x1 + h2 + x2 + h3 + x3|, h4)
            && |r| == |h0 + x0 + h1 + x1 + h2 + x2 + h3 + x3| + |h4|
  {
    LayoutFront(h0, x0, h1, x1, h2, x2, h3, x3, h4);
    LayoutBack(h0, x0, h1, x1, h2, x2, h3, x3, h4);
  }

  lemma LayoutFront(h0: string, x0: string, h1: string, x1: string, h2: string, x2: string,
                    h3: string, x3: string, h4: string)
    ensures var r := h0 + x0 + h1 + x1 + h2 + x2 + h3 + x3 + h4;
            At(r, 0, h0) && At(r, |h0|, x0) && At(r, |h0 + x0|, h1 + x1)
  {
    Piece([], h0, x0 + h1 + x1 + h2 + x2 + h3 + x3 + h4);
    Piece(h0, x0, h1 + x1 + h2 + x2 + h3 + x3 + h4);
    Piece(h0 + x0, h1 + x1, h2 + x2 + h3 + x3 + h4);
  }

  lemma LayoutBack(h0: string, x0: string, h1: string, x1: string, h2: string, x2: string,
                   h3: string, x3: string, h4: string)
    ensures var r := h0 + x0 + h1 + x1 + h2 + x2 + h3 + x3 + h4;
            && At(r, |h0 + x0 + h1 + x1|, h2 + x2)
            && At(r, |h0 + x0 + h1 + x1 + h2 + x2|, h3 + x3)
            && At(r, |h0 + x0 + h1 + x1 + h2 + x2 + h3 + x3|, h4)
            && |r| == |h0 + x0 + h1 + x1 + h2 + x2 + h3 + x3| + |h4|
  {
    Piece(h0 + x0 + h1 + x1, h2 + x2, h3 + x3 + h4);
    Piece(h0 + x0 + h1 + x1 + h2 + x2, h3 + x3, h4);
    Piece(h0 + x0 + h1 + x1 + h2 + x2 + h3 + x3, h4, []);
  }

  /** Lines 79-119: the prompt for the filtered frame and the retrieved context lines. */
  function QueryPrompt(p: Pandas, kept: seq<Sale>, lines: seq<string>, question: string): string {
    Prompt(ContextText(lines), StatsText(p, kept), p.table(Sample(kept)), question)
  }

  // ---------------------------------------------------------------------------
  // Outcomes of the handlers

  /** What `pd.read_csv(...).to_dict("records")` gave: records, or one of pandas' two errors. */
  datatype CsvParse = Records(rows: seq<Row>) | EmptyData | ParserError(message: string)

  /** `generate_content_async`: raised, a response without parts, or text. */
  datatype Generation = Raised | NoParts | Parts(text: string)

  datatype UploadResponse =
    | Uploaded(filename: string, rowsInserted: nat)
    | UploadError(status: int, detail: Detail)

  datatype QueryResponse =
    | Answered(answer: string)
    | QueryError(status: int, detail: Detail)

  /** One document of the query history. `now` is opaque. */
  datatype Exchange<Time> = Exchange(question: string, answer: string, timestamp: Time)

  /**
   * Lines 22-57: the wrong content type is refused before the `try`; pandas'
   * two errors become 400s; the 400 for an empty record list is raised inside
   * the `try` and rewrapped by the generic handler as a 500 carrying its text.
   */
  function UploadReply(contentType: string, filename: string, parsed: CsvParse): (r: UploadResponse)
    ensures r.Uploaded? <==> contentType == CsvContentType && parsed.Records? && parsed.rows != []
    ensures r.Uploaded? ==> r.filename == filename && r.rowsInserted == |parsed.rows|
    ensures contentType != CsvContentType ==> r == UploadError(400, Message(BadFormatDetail))
    ensures contentType == CsvContentType && parsed.EmptyData? ==> r == UploadError(400, Message(EmptyFileDetail))
    ensures contentType == CsvContentType && parsed.ParserError? ==>
      r == UploadError(400, Message(ParseErrorPrefix + parsed.message))
    ensures contentType == CsvContentType && parsed == Records([]) ==>
      r == UploadError(500, StrOf(HttpException(400, EmptyRecordsDetail)))
  {
    if contentType != CsvContentType then UploadError(400, Message(BadFormatDetail))
    else
      match parsed
      case EmptyData => UploadError(400, Message(EmptyFileDetail))
      case ParserError(m) => UploadError(400, Message(ParseErrorPrefix + m))
      case Records(rs) =>
        if rs == [] then UploadError(500, StrOf(HttpException(400, EmptyRecordsDetail)))
        else Uploaded(filename, |rs|)
  }

  /**
   * Lines 64-144, the body of the `try` of `query_csv`: the answer, or the
   * exception it raises. `retrieved` is what `recupera_simili` returned.
   */
  function QueryReply(p: Pandas, rows: seq<Row>, retrieved: Result<seq<string>, Exception>,
                      generate: string -> Generation, question: string): (r: Result<string, Exception>)
    ensures rows == [] ==> r == Failure(HttpException(404, NoCsvDetail))
    ensures rows != [] && MissingColumn(rows).Some? ==> r == Failure(KeyError(MissingColumn(rows).value))
    ensures rows != [] && MissingColumn(rows).None? && retrieved.Failure? ==> r == Failure(retrieved.error)
    ensures r.Success? <==>
      && rows != [] && MissingColumn(rows).None? && retrieved.Success?
      && generate(QueryPrompt(p, Kept(p, rows), retrieved.value, question)).Parts?
    ensures rows != [] && MissingColumn(rows).None? && retrieved.Success? ==>
      var g := generate(QueryPrompt(p, Kept(p, rows), retrieved.value, question));
      && (g.Raised? ==> r == Failure(GenerationFailed))
      && (g.NoParts? ==> r == Failure(HttpException(500, EmptyOutputDetail)))
      && (g.Parts? ==> r == Success(Strip(g.text)))
  {
    if rows == [] then Failure(HttpException(404, NoCsvDetail))
    else
      match PrepareFrame(p, rows)
      case Failure(e) => Failure(e)
      case Success(kept) =>
        match retrieved
        case Failure(e) => Failure(e)
        case Success(lines) =>
          match generate(QueryPrompt(p, kept, lines, question))
          case Raised => Failure(GenerationFailed)
          case NoParts => Failure(HttpException(500, EmptyOutputDetail))
          case Parts(text) => Success(Strip(text))
  }

  /** Lines 146-150: every exception of the `try` becomes a 500 carrying `str(e)`. */
  function Respond(r: Result<string, Exception>): (resp: QueryResponse)
    ensures resp.Answered? <==> r.Success?
    ensures r.Success? ==> resp.answer == r.value
    ensures r.Failure? ==> resp == QueryError(500, StrOf(r.error))
  {
    match r
    case Success(a) => Answered(a)
    case Failure(e) => QueryError(500, StrOf(e))
  }

  // ---------------------------------------------------------------------------
  // The application state

  class App<Time> {
    /** The `csv_uploads` collection. */
    var rows: seq<Row>
    /** The `query_history` collection. */
    var history: seq<Exchange<Time>>
    /** The vector store the query handler writes to. */
    const store: VectorStore.Manager

    ghost predicate Valid()
      reads this, store
    {
      store.Valid()
    }

    constructor (store: VectorStore.Manager)
      requires store.Valid()
      ensures Valid()
      ensures rows == [] && history == [] && this.store == store
    {
      rows, history := [], [];
      this.store := store;
    }

    /**
     * `upload_csv`: the stored rows change only when a non-empty record list
     * was parsed from a `text/csv` upload, and then they are exactly that list
     * (`delete_many` followed by `insert_many`).
     */
    method UploadCsv(contentType: string, filename: string, parsed: CsvParse) returns (resp: UploadResponse)
      requires Valid()
      modifies this
      ensures Valid()
      ensures resp == UploadReply(contentType, filename, parsed)
      ensures resp.Uploaded? ==> rows == parsed.rows
      ensures resp.UploadError? ==> rows == old(rows)
      ensures history == old(history)
    {
      if contentType != CsvContentType {
        return UploadError(400, Message(BadFormatDetail));
      }
      match parsed
      case EmptyData =>
        return UploadError(400, Message(EmptyFileDetail));
      case ParserError(m) =>
        return UploadError(400, Message(ParseErrorPrefix + m));
      case Records(records) =>
        if records == [] {
          return UploadError(500, StrOf(HttpException(400, EmptyRecordsDetail)));
        }
        rows := [];
        rows := rows + records;
        resp := Uploaded(filename, |records|);
    }

    /**
     * `query_csv`. Every check (rows present, columns present, retrieval
     * possible, generation non-empty) comes before the first write. Once an
     * answer exists it goes to the history, and then the same pair to the
     * vector store; `upsertOk` is whether that remote upsert goes through. If
     * it raises, the generic handler answers 500 and the history entry stays.
     */
    method QueryCsv(question: string, p: Pandas, generate: string -> Generation, upsertOk: bool, now: Time)
      returns (resp: QueryResponse, ghost retrieved: Result<seq<string>, Exception>,
               ghost hits: seq<VectorStore.Record>)
      requires Valid()
      modifies this, store
      ensures Valid()
      ensures var reply := QueryReply(p, old(rows), retrieved, generate, question);
        resp == if reply.Success? && !upsertOk then QueryError(500, StrOf(UpsertFailed)) else Respond(reply)
      ensures old(rows) != [] && MissingColumn(old(rows)).None? ==>
        && (!old(store.Ready()) ==> retrieved == Failure(NotInitialized))
        && (old(store.Ready()) && old(store.collection).None? ==>
              retrieved == Failure(CollectionNotFound(VectorStore.CollectionName)))
        && (old(store.Ready()) && old(store.collection).Some? ==>
              && hits == store.search(store.embed(question), old(store.records), VectorStore.DefaultTopK)
              && VectorStore.Ranked(hits, old(store.records), VectorStore.DefaultTopK)
              && retrieved == Success(VectorStore.FormatHits(hits)))
      ensures rows == old(rows)
      ensures store.clientSet == old(store.clientSet) && store.modelSet == old(store.modelSet)
      ensures store.collection == old(store.collection)
      ensures var reply := QueryReply(p, old(rows), retrieved, generate, question);
        reply.Success? ==> history == old(history) + [Exchange(question, reply.value, now)]
      ensures var reply := QueryReply(p, old(rows), retrieved, generate, question);
        reply.Success? && upsertOk ==>
        && store.records == old(store.records) +
             [VectorStore.Record(old(store.nextId), store.embed(question), question, reply.value)]
        && store.ids == old(store.ids) + {old(store.nextId)} && store.nextId == old(store.nextId) + 1
      ensures var reply := QueryReply(p, old(rows), retrieved, generate, question);
        reply.Failure? ==> history == old(history)
      ensures var reply := QueryReply(p, old(rows), retrieved, generate, question);
        reply.Failure? || !upsertOk ==>
        store.records == old(store.records) && store.ids == old(store.ids) && store.nextId == old(store.nextId)
    {
      retrieved, hits := Failure(NotInitialized), [];
      if rows == [] {
        return QueryError(500, StrOf(HttpException(404, NoCsvDetail))), retrieved, hits;
      }
      var frame := PrepareFrame(p, rows);
      if frame.Failure? {
        return QueryError(500, StrOf(frame.error)), retrieved, hits;
      }
      var kept := frame.value;
      var context;
      ghost var found;
      context, found := store.RetrieveSimilar(question, VectorStore.DefaultTopK);
      retrieved, hits := context, found;
      if context.Failure? {
        return QueryError(500, StrOf(context.error)), retrieved, hits;
      }
      var prompt := QueryPrompt(p, kept, context.value, question);
      var generated := generate(prompt);
      match generated
      case Raised =>
        return QueryError(500, StrOf(GenerationFailed)), retrieved, hits;
      case NoParts =>
        return QueryError(500, StrOf(HttpException(500, EmptyOutputDetail))), retrieved, hits;
      case Parts(text) =>
        var answer := Strip(text);
        var saved := Remember(question, answer, upsertOk, now);
        if saved.Fail? {
          return QueryError(500, StrOf(saved.error)), retrieved, hits;
        }
        resp := Answered(answer);
    }

    /**
     * Lines 136-142, reached only once retrieval has shown the store ready:
     * the history insert, then `salva_embedding`, which fails only when the
     * remote upsert raises, and then leaves the history entry in place.
     */
    method Remember(question: string, answer: string, upsertOk: bool, now: Time) returns (saved: Outcome<Exception>)
      requires Valid() && store.Ready() && store.collection.Some?
      modifies this, store
      ensures Valid()
      ensures saved == if upsertOk then Pass else Fail(UpsertFailed)
      ensures rows == old(rows)
      ensures history == old(history) + [Exchange(question, answer, now)]
      ensures store.clientSet == old(store.clientSet) && store.modelSet == old(store.modelSet)
      ensures store.collection == old(store.collection)
      ensures saved.Pass? ==>
        && store.records == old(store.records) +
             [VectorStore.Record(old(store.nextId), store.embed(question), question, answer)]
        && store.ids == old(store.ids) + {old(store.nextId)} && store.nextId == old(store.nextId) + 1
      ensures saved.Fail? ==>
        store.records == old(store.records) && store.ids == old(store.ids) && store.nextId == old(store.nextId)
    {
      history := history + [Exchange(question, answer, now)];
      saved := store.SaveEmbedding(question, answer, upsertOk);
    }
  }
}
