/** The retrieval-and-evidence pipeline of the legal chatbot: lazy loading of
    the corpus, the FAISS index and the embedding model into three module
    globals; mapping index rows to corpus records; the score-threshold filter;
    the evidence block handed to the generator; and the literal fallbacks used
    when the generator is missing or fails.

    The corpus file, json.loads, the FAISS index file and its search, the
    SentenceTransformer model and the Groq client are the Environment: values
    and functions given from outside, fixed for the life of the process. */
module ChatbotService {
  import opened Wrappers
  import opened Strings
  import opened Collections

  // ---------------------------------------------------------------------------
  // Corpus records and the outside world.

  /** The string-valued keys of a corpus record that the pipeline reads;
      None stands for a key that is absent or null. */
  datatype Fields = Fields(
    lawTitle: Option<string>,            // "law_title"
    lawTitleAlt: Option<string>,         // "Law Title"
    sectionName: Option<string>,         // "section_name"
    sectionNameAlt: Option<string>,      // "Section Name"
    sectionId: Option<string>,           // "section_id"
    sectionIdAlt: Option<string>,        // "Section ID"
    lawPassDate: Option<string>,         // "law_pass_date"
    text: Option<string>,                // "text"
    textForEmbed: Option<string>,        // "_text_for_embed"
    cleanSectionDescription: Option<string>)

  /** A corpus record: its own keys, and the keys of its "meta" value when that
      value is a dict (None when "meta" is absent or not a dict). */
  datatype Doc = Doc(fields: Fields, meta: Option<Fields>)

  /** Where the metadata is read from: "meta" when it is a dict, else the record. */
  function MetaOf(d: Doc): Fields {
    if d.meta.Some? then d.meta.value else d.fields
  }

  datatype FaissIndex = FaissIndex(handle: nat)
  datatype EmbedModel = EmbedModel(handle: nat)

  /** The (normalised) embedding of a query under a model; its numbers are not modelled. */
  datatype Embedding = Embedding(model: EmbedModel, query: string)

  /** What the Groq chat call gives: an exception, or a message whose content may be empty. */
  datatype GroqOutcome = GroqRaised | GroqReply(content: Option<string>)

  datatype Environment = Environment(
    corpusLines: Option<seq<string>>,              // lines of the JSONL file; None: no such file
    parseLine: string -> Option<Doc>,              // json.loads; None where it raises
    indexFile: Option<FaissIndex>,                 // load_faiss_index; None: missing or unreadable
    model: Option<EmbedModel>,                     // SentenceTransformer(...); None where it raises
    search: (FaissIndex, Embedding, int) -> seq<(real, int)>,  // (score, row id) columns
    groqConfigured: bool,                          // whether the module-level client exists
    groq: (string, string) -> GroqOutcome)         // the chat call for (question, sources)

  /** FAISS's search for k neighbours gives k columns, with row id -1 where
      the index has fewer vectors. */
  ghost predicate SearchGivesTopK(env: Environment) {
    forall i: FaissIndex, e: Embedding, k: int :: k >= 1 ==> |env.search(i, e, k)| == k
  }

  datatype Hit = Hit(score: real, docIndex: int, doc: Doc)

  // ---------------------------------------------------------------------------
  // load_jsonl_docs

  predicate Blank(line: string) {
    Strip(line) == []
  }

  /** The records of a JSONL file: blank lines are skipped, every other line is
      parsed in file order, and one unparsable line makes the whole load fail. */
  function ParseLines(lines: seq<string>, parse: string -> Option<Doc>): Option<seq<Doc>> {
    if lines == [] then Some([])
    else
      match ParseLines(lines[..|lines| - 1], parse)
      case None => None
      case Some(ds) =>
        var line := lines[|lines| - 1];
        if Blank(line) then Some(ds)
        else match parse(line)
          case None => None
          case Some(d) => Some(ds + [d])
  }

  function NonBlank(lines: seq<string>): seq<string> {
    Filter(lines, (l: string) => !Blank(l))
  }

  /** Parsing every line of a list, all or nothing: the result exists exactly
      when every line parses, and then it holds the parses in order. */
  function ParseAll(ls: seq<string>, parse: string -> Option<Doc>): (r: Option<seq<Doc>>)
    ensures r.Some? <==> forall k :: 0 <= k < |ls| ==> parse(ls[k]).Some?
    ensures r.Some? ==> |r.value| == |ls| && forall k :: 0 <= k < |ls| ==> parse(ls[k]) == Some(r.value[k])
  {
    if ls == [] then Some([])
    else
      var init := ls[..|ls| - 1];
      assert forall k :: 0 <= k < |init| ==> init[k] == ls[k];
      match ParseAll(init, parse)
      case None => None
      case Some(ds) =>
        match parse(ls[|ls| - 1])
        case None => None
        case Some(d) => Some(ds + [d])
  }

  /** The load succeeds exactly when every non-blank line parses, and then the
      records are those lines' parses, one per non-blank line, in file order. */
  lemma {:induction false} ParseLinesSpec(lines: seq<string>, parse: string -> Option<Doc>)
    ensures ParseLines(lines, parse) == ParseAll(NonBlank(lines), parse)
  {
    if lines != [] {
      var init, line := lines[..|lines| - 1], lines[|lines| - 1];
      assert lines == init + [line];
      ParseLinesSpec(init, parse);
      FilterSnoc(init, line, (l: string) => !Blank(l));
      var nb := NonBlank(lines);
      if Blank(line) {
        assert nb == NonBlank(init);
      } else {
        assert nb == NonBlank(init) + [line];
        assert nb[..|nb| - 1] == NonBlank(init) && nb[|nb| - 1] == line;
        assert ParseLines(lines, parse) == match ParseLines(init, parse)
          case None => None
          case Some(ds) => (match parse(line) case None => None case Some(d) => Some(ds + [d]));
      }
    }
  }

  /** A load that fails on a prefix of the file fails on the whole file. */
  lemma {:induction false} ParseLinesFailsOnward(lines: seq<string>, i: nat, parse: string -> Option<Doc>)
    requires i <= |lines| && ParseLines(lines[..i], parse).None?
    ensures ParseLines(lines, parse).None?
    decreases |lines| - i
  {
    if i < |lines| {
      assert lines[..i + 1][..i] == lines[..i];
      ParseLinesFailsOnward(lines, i + 1, parse);
    } else {
      assert lines[..i] == lines;
    }
  }

  /** load_jsonl_docs: a missing file gives no records; otherwise the loop reads
      line by line, skipping blank lines. An exception from json.loads is
      Err(Unhandled). */
  method LoadJsonlDocs(file: Option<seq<string>>, parse: string -> Option<Doc>)
    returns (r: Result<seq<Doc>, Failure>)
    ensures file.None? ==> r == Ok([])
    ensures file.Some? && ParseLines(file.value, parse).Some? ==> r == Ok(ParseLines(file.value, parse).value)
    ensures file.Some? && ParseLines(file.value, parse).None? ==> r == Err(Unhandled)
  {
    if file.None? {
      return Ok([]);
    }
    var lines := file.value;
    var docs: seq<Doc> := [];
    for i := 0 to |lines|
      invariant ParseLines(lines[..i], parse) == Some(docs)
    {
      assert lines[..i + 1][..i] == lines[..i];
      var line := lines[i];
      if Blank(line) {
        continue;
      }
      var parsed := parse(line);
      if parsed.None? {
        ParseLinesFailsOnward(lines, i + 1, parse);
        return Err(Unhandled);
      }
      docs := docs + [parsed.value];
    }
    assert lines[..|lines|] == lines;
    return Ok(docs);
  }

  /** The records initialize ends up with: a failed load leaves the list empty. */
  function DocsOnDisk(env: Environment): seq<Doc> {
    match env.corpusLines
    case None => []
    case Some(lines) => ParseLines(lines, env.parseLine).GetOr([])
  }

  // ---------------------------------------------------------------------------
  // Row ids to hits (the loop of retrieve_hits).

  /** The hits for the search columns: a row id outside [0, |docs|) is skipped;
      every other column becomes a hit on that record, in column order. */
  function HitsOf(pairs: seq<(real, int)>, docs: seq<Doc>): (r: seq<Hit>)
    ensures |r| <= |pairs|
    ensures forall k :: 0 <= k < |r| ==>
              0 <= r[k].docIndex < |docs| && r[k].doc == docs[r[k].docIndex] &&
              (r[k].score, r[k].docIndex) in pairs
  {
    if pairs == [] then []
    else
      var init := pairs[..|pairs| - 1];
      var rest := HitsOf(init, docs);
      var (score, idx) := pairs[|pairs| - 1];
      assert forall p :: p in init ==> p in pairs;
      if idx < 0 || idx >= |docs| then rest else rest + [Hit(score, idx, docs[idx])]
  }

  /** The hits of two runs of columns are the hits of each, in order. */
  lemma {:induction false} HitsOfAppend(a: seq<(real, int)>, b: seq<(real, int)>, docs: seq<Doc>)
    ensures HitsOf(a + b, docs) == HitsOf(a, docs) + HitsOf(b, docs)
    decreases |b|
  {
    if b == [] {
      assert a + b == a;
    } else {
      var init := b[..|b| - 1];
      HitsOfAppend(a, init, docs);
      assert (a + b)[..|a + b| - 1] == a + init;
      assert (a + b)[|a + b| - 1] == b[|b| - 1];
    }
  }

  /** When every row id is in range nothing is dropped: hit k is column k. */
  lemma {:induction false} HitsOfAllInRange(pairs: seq<(real, int)>, docs: seq<Doc>)
    requires forall k :: 0 <= k < |pairs| ==> 0 <= pairs[k].1 < |docs|
    ensures |HitsOf(pairs, docs)| == |pairs|
    ensures forall k :: 0 <= k < |pairs| ==>
              (k < |HitsOf(pairs, docs)| && HitsOf(pairs, docs)[k] == Hit(pairs[k].0, pairs[k].1, docs[pairs[k].1]))
  {
    if pairs != [] {
      HitsOfAllInRange(pairs[..|pairs| - 1], docs);
    }
  }

  /** A single column whose row id is out of range gives no hit. */
  lemma HitsOfOutOfRange(score: real, idx: int, docs: seq<Doc>)
    requires idx < 0 || idx >= |docs|
    ensures HitsOf([(score, idx)], docs) == []
  {
    assert [(score, idx)][..0] == [];
  }

  method CollectHits(pairs: seq<(real, int)>, docs: seq<Doc>) returns (hits: seq<Hit>)
    ensures hits == HitsOf(pairs, docs)
  {
    hits := [];
    for i := 0 to |pairs|
      invariant hits == HitsOf(pairs[..i], docs)
    {
      assert pairs[..i + 1][..i] == pairs[..i];
      var (score, idx) := pairs[i];
      if idx < 0 || idx >= |docs| {
        continue;
      }
      hits := hits + [Hit(score, idx, docs[idx])];
    }
    assert pairs[..|pairs|] == pairs;
  }

  // ---------------------------------------------------------------------------
  // The score-threshold filter of run_inference.

  function Passes(threshold: real): Hit -> bool {
    (h: Hit) => h.score >= threshold
  }

  function AboveThreshold(hits: seq<Hit>, threshold: real): (r: seq<Hit>)
    ensures |r| <= |hits|
    ensures forall k :: 0 <= k < |r| ==> r[k].score >= threshold
  {
    Filter(hits, Passes(threshold))
  }

  /** A hit is kept exactly when it was retrieved and reaches the threshold. */
  lemma AboveThresholdMembership(hits: seq<Hit>, threshold: real, h: Hit)
    ensures h in AboveThreshold(hits, threshold) <==> h in hits && h.score >= threshold
  {
    FilterMembership(hits, Passes(threshold), h);
  }

  /** The filter keeps the retrieval order: it distributes over concatenation. */
  lemma AboveThresholdAppend(a: seq<Hit>, b: seq<Hit>, threshold: real)
    ensures AboveThreshold(a + b, threshold) == AboveThreshold(a, threshold) + AboveThreshold(b, threshold)
  {
    FilterAppend(a, b, Passes(threshold));
  }

  /** Nothing passes exactly when every hit scores below the threshold. */
  lemma AboveThresholdEmpty(hits: seq<Hit>, threshold: real)
    ensures AboveThreshold(hits, threshold) == [] <==> forall k :: 0 <= k < |hits| ==> hits[k].score < threshold
  {
    FilterEmpty(hits, Passes(threshold));
  }

  // ---------------------------------------------------------------------------
  // build_sources_block

  /** law_title or "Law Title", stripped. */
  function Title(m: Fields): string {
    Strip(OrEmpty(Or(m.lawTitle, m.lawTitleAlt)))
  }

  /** section_name or "Section Name", stripped. */
  function SectionName(m: Fields): string {
    Strip(OrEmpty(Or(m.sectionName, m.sectionNameAlt)))
  }

  /** section_id or "Section ID", not stripped. */
  function SectionId(m: Fields): string {
    OrEmpty(Or(m.sectionId, m.sectionIdAlt))
  }

  /** law_pass_date, stripped (both alternatives of the source name the same key). */
  function LawDate(m: Fields): string {
    Strip(OrEmpty(m.lawPassDate))
  }

  /** The header lines of the fallback excerpt: only the non-empty fields, in
      the order title, date, id, name. */
  function HeaderParts(m: Fields): (r: seq<string>)
    ensures |r| <= 4
    ensures Title(m) != "" ==> |r| > 0 && r[0] == "Law Title: " + Title(m)
    ensures r == [] <==> Title(m) == "" && LawDate(m) == "" && SectionId(m) == "" && SectionName(m) == ""
  {
    var title, date, id, name := Title(m), LawDate(m), SectionId(m), SectionName(m);
    (if title != "" then ["Law Title: " + title] else []) +
    (if date != "" then ["Law Date: " + date] else []) +
    (if id != "" then ["Section ID: " + id] else []) +
    (if name != "" then ["Section Name: " + name] else [])
  }

  /** The excerpt before truncation: "text", else "_text_for_embed", else the
      header lines, a blank line and clean_section_description. */
  function ExcerptSource(d: Doc): (r: string)
    ensures Truthy(d.fields.text) ==> r == d.fields.text.value
    ensures !Truthy(d.fields.text) && Truthy(d.fields.textForEmbed) ==> r == d.fields.textForEmbed.value
  {
    var text := OrEmpty(Or(d.fields.text, d.fields.textForEmbed));
    if text != "" then text
    else Join(HeaderParts(MetaOf(d)), "\n") + "\n\n" + OrEmpty(MetaOf(d).cleanSectionDescription)
  }

  /** Cut to maxChars characters plus "..." only when longer. */
  function Truncate(text: string, maxChars: nat): (r: string)
    ensures |r| <= maxChars + 3
    ensures |text| <= maxChars ==> r == text
    ensures |text| > maxChars ==> |r| == maxChars + 3 && r[..maxChars] == text[..maxChars] && r[maxChars..] == "..."
  {
    if |text| > maxChars then text[..maxChars] + "..." else text
  }

  /** The label after "[SOURCE i]": title, id and date when present, else the row id. */
  function Label(h: Hit): string {
    var m := MetaOf(h.doc);
    var header :=
      (if Title(m) != "" then "title: " + Title(m) else "") +
      (if SectionId(m) != "" then " | id: " + SectionId(m) else "") +
      (if LawDate(m) != "" then " | date: " + LawDate(m) else "");
    if header != "" then header else "doc_index: " + IntToString(h.docIndex)
  }

  /** The label falls back to the row id exactly when title, id and date are all empty. */
  lemma LabelFallback(h: Hit)
    ensures Label(h) == "doc_index: " + IntToString(h.docIndex) <==>
              Title(MetaOf(h.doc)) == "" && SectionId(MetaOf(h.doc)) == "" && LawDate(MetaOf(h.doc)) == ""
  {
    var m := MetaOf(h.doc);
    var fallback := "doc_index: " + IntToString(h.docIndex);
    if Title(m) != "" {
      assert Label(h)[0] == 't' != fallback[0];
    } else if SectionId(m) != "" {
      assert Label(h)[0] == ' ' != fallback[0];
    } else if LawDate(m) != "" {
      assert Label(h)[0] == ' ' != fallback[0];
    }
  }

  function SourceTag(i: nat): string {
    "[SOURCE " + IntToString(i) + "] "
  }

  /** The evidence block for the hit at position i. */
  function Block(i: nat, h: Hit, maxChars: nat): string {
    SourceTag(i) + Label(h) + "\n\n" + Truncate(ExcerptSource(h.doc), maxChars)
  }

  /** f applied to each element and its position. */
  function MapIndexed<T, U>(xs: seq<T>, f: (nat, T) -> U): (r: seq<U>)
    ensures |r| == |xs|
    ensures forall i :: 0 <= i < |xs| ==> r[i] == f(i, xs[i])
  {
    seq(|xs|, i requires 0 <= i < |xs| => f(i, xs[i]))
  }

  lemma MapIndexedSnoc<T, U>(xs: seq<T>, x: T, f: (nat, T) -> U)
    ensures MapIndexed(xs + [x], f) == MapIndexed(xs, f) + [f(|xs|, x)]
  {
    var l, r := MapIndexed(xs + [x], f), MapIndexed(xs, f) + [f(|xs|, x)];
    forall k | 0 <= k < |l| ensures l[k] == r[k] {
      if k < |xs| {
        assert (xs + [x])[k] == xs[k];
      }
    }
  }

  function Blocks(hits: seq<Hit>, maxChars: nat): (r: seq<string>)
    ensures |r| == |hits|
    ensures forall i :: 0 <= i < |hits| ==> r[i] == Block(i, hits[i], maxChars)
  {
    MapIndexed(hits, (i: nat, h: Hit) => Block(i, h, maxChars))
  }

  function SourcesBlock(hits: seq<Hit>, maxChars: nat): string {
    Join(Blocks(hits, maxChars), "\n\n")
  }

  /** Block i begins with its positional tag [SOURCE i], counting from 0. */
  lemma BlockStartsWithTag(i: nat, h: Hit, maxChars: nat)
    ensures |SourceTag(i)| <= |Block(i, h, maxChars)|
    ensures Block(i, h, maxChars)[..|SourceTag(i)|] == SourceTag(i)
  {
    var rest := Label(h) + "\n\n" + Truncate(ExcerptSource(h.doc), maxChars);
    assert Block(i, h, maxChars) == SourceTag(i) + rest;
  }

  /** Different positions get different tags, so each block's tag names one hit. */
  lemma SourceTagInjective(i: nat, j: nat)
    ensures SourceTag(i) == SourceTag(j) ==> i == j
  {
    if SourceTag(i) == SourceTag(j) {
      var a, b := SourceTag(i), SourceTag(j);
      assert IntToString(i) == a[8..|a| - 2];
      assert IntToString(j) == b[8..|b| - 2];
      IntStringRoundTrip(i);
      IntStringRoundTrip(j);
    }
  }

  lemma {:induction false} JoinSnoc(parts: seq<string>, x: string, sep: string)
    requires parts != []
    ensures Join(parts + [x], sep) == Join(parts, sep) + sep + x
    decreases |parts|
  {
    if |parts| == 1 {
      assert (parts + [x])[1..] == [x];
    } else {
      assert (parts + [x])[1..] == parts[1..] + [x];
      JoinSnoc(parts[1..], x, sep);
    }
  }

  lemma BlocksSnoc(hits: seq<Hit>, h: Hit, maxChars: nat)
    ensures Blocks(hits + [h], maxChars) == Blocks(hits, maxChars) + [Block(|hits|, h, maxChars)]
  {
    MapIndexedSnoc(hits, h, (i: nat, h: Hit) => Block(i, h, maxChars));
  }

  /** Adding a hit appends one more block, labelled with the next position. */
  lemma SourcesBlockSnoc(hits: seq<Hit>, h: Hit, maxChars: nat)
    requires hits != []
    ensures SourcesBlock(hits + [h], maxChars) == SourcesBlock(hits, maxChars) + "\n\n" + Block(|hits|, h, maxChars)
  {
    BlocksSnoc(hits, h, maxChars);
    JoinSnoc(Blocks(hits, maxChars), Block(|hits|, h, maxChars), "\n\n");
  }

  /** The body of build_sources_block's loop for the hit at position i. */
  method BuildBlock(i: nat, h: Hit, maxChars: nat) returns (block: string)
    ensures block == Block(i, h, maxChars)
  {
    var text := BuildExcerpt(h.doc);
    if |text| > maxChars {
      text := text[..maxChars] + "...";
    }
    var blockLabel := BuildLabel(h);
    block := "[SOURCE " + IntToString(i) + "] " + blockLabel + "\n\n" + text;
  }

  /** The excerpt text before truncation: the stored text, or the header
      lines and the clean description. */
  method BuildExcerpt(d: Doc) returns (text: string)
    ensures text == ExcerptSource(d)
  {
    var m := MetaOf(d);
    text := OrEmpty(Or(d.fields.text, d.fields.textForEmbed));
    if text == "" {
      var headerParts := BuildHeaderParts(m);
      text := Join(headerParts, "\n") + "\n\n" + OrEmpty(m.cleanSectionDescription);
    }
  }

  /** The header lines of a document without text, in their fixed order. */
  method BuildHeaderParts(m: Fields) returns (headerParts: seq<string>)
    ensures headerParts == HeaderParts(m)
  {
    var lawTitle := Title(m);
    var sectionName := SectionName(m);
    var sectionId := SectionId(m);
    var lawDate := LawDate(m);
    headerParts := [];
    if lawTitle != "" { headerParts := headerParts + ["Law Title: " + lawTitle]; }
    if lawDate != "" { headerParts := headerParts + ["Law Date: " + lawDate]; }
    if sectionId != "" { headerParts := headerParts + ["Section ID: " + sectionId]; }
    if sectionName != "" { headerParts := headerParts + ["Section Name: " + sectionName]; }
  }

  /** The block's label: title, id and date, or the document index. */
  method BuildLabel(h: Hit) returns (blockLabel: string)
    ensures blockLabel == Label(h)
  {
    var m := MetaOf(h.doc);
    var lawTitle := Title(m);
    var sectionId := SectionId(m);
    var lawDate := LawDate(m);
    var headerLabel := if lawTitle != "" then "title: " + lawTitle else "";
    headerLabel := headerLabel + (if sectionId != "" then " | id: " + sectionId else "");
    headerLabel := headerLabel + (if lawDate != "" then " | date: " + lawDate else "");
    blockLabel := if headerLabel != "" then headerLabel else "doc_index: " + IntToString(h.docIndex);
  }

  /** No hit gives "" and one hit gives its block alone. */
  lemma SourcesBlockFew(hits: seq<Hit>, maxChars: nat)
    ensures hits == [] ==> SourcesBlock(hits, maxChars) == ""
    ensures |hits| == 1 ==> SourcesBlock(hits, maxChars) == Block(0, hits[0], maxChars)
  {
    if |hits| == 1 {
      assert Blocks(hits, maxChars) == [Block(0, hits[0], maxChars)];
    }
  }

  lemma BlocksPrefix(hits: seq<Hit>, i: nat, maxChars: nat)
    requires i < |hits|
    ensures Blocks(hits[..i + 1], maxChars) == Blocks(hits[..i], maxChars) + [Block(i, hits[i], maxChars)]
  {
    assert hits[..i + 1] == hits[..i] + [hits[i]];
    BlocksSnoc(hits[..i], hits[i], maxChars);
  }

  /** build_sources_block: one block per hit, joined by a blank line. */
  method BuildSourcesBlock(hits: seq<Hit>, maxChars: nat) returns (r: string)
    ensures r == SourcesBlock(hits, maxChars)
  {
    var blocks: seq<string> := [];
    for i := 0 to |hits|
      invariant blocks == Blocks(hits[..i], maxChars)
    {
      var block := BuildBlock(i, hits[i], maxChars);
      BlocksPrefix(hits, i, maxChars);
      blocks := blocks + [block];
    }
    assert hits[..|hits|] == hits;
    r := Join(blocks, "\n\n");
  }

  // ---------------------------------------------------------------------------
  // ask_groq (guards only), run_inference, format_user_friendly_answer

  const IDontKnow: string := "I do not know"
  const MaxChars: nat := 2000

  /** ask_groq: the literal fallback when no client is configured, when the
      call raises or when the reply is empty; otherwise the reply. */
  function AskGroq(configured: bool, outcome: GroqOutcome): (r: string)
    ensures r != ""
    ensures r == IDontKnow || (configured && outcome.GroqReply? && outcome.content == Some(r))
    ensures !configured || outcome.GroqRaised? ==> r == IDontKnow
    ensures configured && outcome.GroqReply? && Truthy(outcome.content) ==> r == outcome.content.value
  {
    if !configured then IDontKnow
    else match outcome
      case GroqRaised => IDontKnow
      case GroqReply(content) => OrEmpty(Or(content, Some(IDontKnow)))
  }

  /** What run_inference returns: the bare string "I do not know", or a dict
      with the answer and the hits that passed the threshold. */
  datatype Inference = Bare(text: string) | Answered(answer: string, hits: seq<Hit>)

  /** The part of run_inference after retrieval. */
  function Respond(env: Environment, question: string, hits: seq<Hit>, threshold: real): Inference {
    var kept := AboveThreshold(hits, threshold);
    if kept == [] then Bare(IDontKnow)
    else Answered(AskGroq(env.groqConfigured, env.groq(question, SourcesBlock(kept, MaxChars))), kept)
  }

  /** The bare string comes back exactly when no hit reaches the threshold;
      otherwise the answer is never empty, it is the generator's reply to the
      evidence block of exactly the kept hits, and those hits are returned. */
  lemma RespondSpec(env: Environment, question: string, hits: seq<Hit>, threshold: real)
    ensures Respond(env, question, hits, threshold).Bare? <==>
              forall k :: 0 <= k < |hits| ==> hits[k].score < threshold
    ensures Respond(env, question, hits, threshold).Bare? ==> Respond(env, question, hits, threshold).text == IDontKnow
    ensures Respond(env, question, hits, threshold).Answered? ==>
              var kept := AboveThreshold(hits, threshold);
              Respond(env, question, hits, threshold) ==
                Answered(AskGroq(env.groqConfigured, env.groq(question, SourcesBlock(kept, MaxChars))), kept) &&
              Respond(env, question, hits, threshold).answer != ""
  {
    AboveThresholdEmpty(hits, threshold);
  }

  /** Retrieval from a loaded process: no hits when the index or the corpus is
      missing; a RuntimeError when they are present but the model is missing;
      an error from the index search, which refuses fewer than one neighbour,
      when top_k < 1; otherwise the hits of the index's columns for the
      query's embedding. */
  function Retrieval(env: Environment, query: string, topK: int): Result<seq<Hit>, Failure> {
    var docs := DocsOnDisk(env);
    if env.indexFile.None? || docs == [] then Ok([])
    else if env.model.None? then Err(Unhandled)
    else if topK < 1 then Err(Unhandled)
    else Ok(HitsOf(env.search(env.indexFile.value, Embedding(env.model.value, query), topK), docs))
  }

  /** With a well-shaped index, retrieve_hits never gives more than top_k
      hits, and for top_k < 1 it answers only when there is nothing to
      search, with no hits. */
  lemma RetrievalAtMostTopK(env: Environment, query: string, topK: int)
    requires SearchGivesTopK(env)
    ensures Retrieval(env, query, topK).Ok? && topK >= 1 ==> |Retrieval(env, query, topK).value| <= topK
    ensures Retrieval(env, query, topK).Ok? && topK < 1 ==>
              Retrieval(env, query, topK).value == [] && (env.indexFile.None? || DocsOnDisk(env) == [])
  {
    if env.indexFile.Some? && env.model.Some? && topK >= 1 {
      var cols := env.search(env.indexFile.value, Embedding(env.model.value, query), topK);
      assert |cols| == topK;
    }
  }

  /** run_inference as a whole. */
  function InferenceOutcome(env: Environment, question: string, topK: int, threshold: real): Result<Inference, Failure> {
    match Retrieval(env, question, topK)
    case Err(e) => Err(e)
    case Ok(hits) => Ok(Respond(env, question, hits, threshold))
  }

  /** Every hit that run_inference returns names a corpus record by its row,
      reaches the threshold, and there are never more than the index gave,
      so never more than top_k. */
  lemma InferenceHitsValid(env: Environment, question: string, topK: int, threshold: real)
    requires InferenceOutcome(env, question, topK, threshold).Ok?
    requires InferenceOutcome(env, question, topK, threshold).value.Answered?
    ensures var hits := InferenceOutcome(env, question, topK, threshold).value.hits;
            var docs := DocsOnDisk(env);
            env.indexFile.Some? && env.model.Some? &&
            topK >= 1 &&
            |hits| <= |env.search(env.indexFile.value, Embedding(env.model.value, question), topK)| &&
            (SearchGivesTopK(env) ==> |hits| <= topK) &&
            forall k :: 0 <= k < |hits| ==>
              hits[k].score >= threshold && 0 <= hits[k].docIndex < |docs| && hits[k].doc == docs[hits[k].docIndex]
  {
    var all := Retrieval(env, question, topK).value;
    var kept := AboveThreshold(all, threshold);
    forall k | 0 <= k < |kept|
      ensures kept[k] in all
    {
      AboveThresholdMembership(all, threshold, kept[k]);
    }
    if SearchGivesTopK(env) {
      RetrievalAtMostTopK(env, question, topK);
    }
  }

  /** format_user_friendly_answer: a fixed heading, the stripped answer and a
      final newline; the hits do not affect the result. */
  function FormatUserFriendlyAnswer(answer: string, hits: seq<Hit>): string {
    // "\n".join of the three parts: heading, stripped answer, empty line
    "ANSWER (sourced):" + "\n" + Strip(answer) + "\n" + ""
  }

  /** The answer can be read back from the formatted text. */
  lemma FormatRecoversAnswer(answer: string, hits: seq<Hit>, other: seq<Hit>)
    ensures FormatUserFriendlyAnswer(answer, hits)[18..|FormatUserFriendlyAnswer(answer, hits)| - 1] == Strip(answer)
    ensures FormatUserFriendlyAnswer(answer, hits) == FormatUserFriendlyAnswer(answer, other)
  {
    var r := FormatUserFriendlyAnswer(answer, hits);
    assert r == "ANSWER (sourced):\n" + Strip(answer) + "\n";
  }

  // ---------------------------------------------------------------------------
  // The three module globals and the functions that initialise them.

  class Chatbot {
    const env: Environment
    var docs: seq<Doc>
    var index: Option<FaissIndex>
    var embedModel: Option<EmbedModel>
    /** How often the corpus and the index were (re)loaded, and the model loaded. */
    ghost var loads: nat
    ghost var modelLoads: nat

    /** Nothing loaded yet, as at import time. */
    ghost predicate Unloaded()
      reads this
    {
      docs == [] && index.None? && embedModel.None?
    }

    /** What initialize leaves behind when it loads. */
    ghost predicate Loaded()
      reads this
    {
      docs == DocsOnDisk(env) && index == env.indexFile && embedModel == env.model
    }

    ghost predicate Valid()
      reads this
    {
      SearchGivesTopK(env) && (Unloaded() || Loaded())
    }

    /** The test of initialize's early return. */
    predicate Ready()
      reads this
    {
      docs != [] && index.Some? && embedModel.Some?
    }

    constructor(env: Environment)
      requires SearchGivesTopK(env)
      ensures this.env == env && Unloaded() && Valid()
      ensures loads == 0 && modelLoads == 0
    {
      this.env := env;
      docs := [];
      index := None;
      embedModel := None;
      loads := 0;
      modelLoads := 0;
    }

    /** initialize: returns at once when everything is present; otherwise
        reloads the corpus and the index, and loads the model only while it is
        None. */
    method Initialize()
      requires Valid()
      modifies this
      ensures Valid() && Loaded()
      ensures old(Ready()) ==> unchanged(this)
      ensures loads == (if old(Ready()) then old(loads) else old(loads) + 1)
      ensures modelLoads == (if old(embedModel).None? then old(modelLoads) + 1 else old(modelLoads))
      ensures old(embedModel).Some? ==> embedModel == old(embedModel)
    {
      if Ready() {
        return;
      }
      var loaded := LoadJsonlDocs(env.corpusLines, env.parseLine);
      docs := if loaded.Ok? then loaded.value else [];
      index := env.indexFile;
      loads := loads + 1;
      if embedModel.None? {
        embedModel := env.model;
        modelLoads := modelLoads + 1;
      }
    }

    /** encode_query, guard only: the model is initialised when missing, and a
        model still missing afterwards is a RuntimeError. */
    method EncodeQuery(query: string) returns (r: Result<Embedding, Failure>)
      requires Valid()
      modifies this
      ensures Valid()
      ensures old(embedModel).Some? ==> unchanged(this) && r == Ok(Embedding(embedModel.value, query))
      ensures old(embedModel).None? ==> Loaded() && loads == old(loads) + 1 && modelLoads == old(modelLoads) + 1
      ensures r == if embedModel.Some? then Ok(Embedding(embedModel.value, query)) else Err(Unhandled)
    {
      if embedModel.None? {
        Initialize();
      }
      if embedModel.None? {
        return Err(Unhandled);
      }
      return Ok(Embedding(embedModel.value, query));
    }

    /** retrieve_hits: initialises when the index or the corpus is missing,
        gives no hits when they are still missing, and otherwise encodes the
        query (which initialises once more while the model is missing) and
        maps the index's columns to corpus records. */
    method RetrieveHits(query: string, topK: int) returns (r: Result<seq<Hit>, Failure>)
      requires Valid()
      modifies this
      ensures Loaded() || unchanged(this)
      ensures Valid()
      ensures old(Ready()) ==> unchanged(this)
      ensures var missing := old(index).None? || old(docs) == [];
              var noModel := if old(embedModel).None? then 1 else 0;
              var again := if env.indexFile.Some? && DocsOnDisk(env) != [] && env.model.None? then 1 else 0;
              (!missing ==> loads == old(loads) + noModel) &&
              (missing ==> loads == old(loads) + 1 + again) &&
              modelLoads == old(modelLoads) + noModel + (if missing then again else 0)
      ensures r == Retrieval(env, query, topK)
      ensures r.Ok? && topK >= 1 ==> |r.value| <= topK
      ensures r.Ok? && topK < 1 ==> r.value == []
    {
      if index.None? || docs == [] {
        Initialize();
      }
      if index.None? || docs == [] {
        return Ok([]);
      }
      var q := EncodeQuery(query);
      if q.Err? {
        return Err(q.error);
      }
      if topK < 1 {
        return Err(Unhandled);
      }
      var pairs := env.search(index.value, q.value, topK);
      var hits := CollectHits(pairs, docs);
      RetrievalAtMostTopK(env, query, topK);
      return Ok(hits);
    }

    /** run_inference. */
    method RunInference(question: string, topK: int, threshold: real) returns (r: Result<Inference, Failure>)
      requires Valid()
      modifies this
      ensures Loaded() || unchanged(this)
      ensures Valid()
      ensures r == InferenceOutcome(env, question, topK, threshold)
    {
      var retrieved := RetrieveHits(question, topK);
      if retrieved.Err? {
        return Err(retrieved.error);
      }
      var hits := AboveThreshold(retrieved.value, threshold);
      if hits == [] {
        return Ok(Bare(IDontKnow));
      }
      var sources := BuildSourcesBlock(hits, MaxChars);
      var answer := AskGroq(env.groqConfigured, env.groq(question, sources));
      return Ok(Answered(answer, hits));
    }
  }
}
