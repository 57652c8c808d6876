/** `build_prompt`: the grounding prompt rendered from a question and the
    retrieved FAQ entries. */
module Prompt {
  import opened Text
  import opened Retrieval

  /** The stripped template up to its `{question}` placeholder (its first
      word stands alone so that proofs can see the leading letter). */
  const Preamble: string :=
    "You"
    + " are an expert in United Kingdom Benefit Claims and Medical Negligence Claims. Answer the QUESTION based on the CONTEXT from \n"
    + "the FAQ databases of Benefits database and NHS claims management. \n"
    + "Use only the facts from the CONTEXT when answering the QUESTION.\n"
    + "\n"
    + "QUESTION: "

  /** The template between `{question}` and `{context}`. */
  const ContextHeading: string := "\n\nCONTEXT: \n"

  const BlockSeparator: string := "\n\n"

  /** The rendering of one entry, trailing blank line included. */
  function Block(d: Doc): string {
    "category: " + d.category + "\nquestion: " + d.question + "\nanswer: " + d.answer
    + "\nsection: " + d.section + "\n\n"
  }

  /** The part of a block that no `strip` can reach: it ends in `:`. */
  function BlockHead(d: Doc): string {
    "category: " + d.category + "\nquestion: " + d.question + "\nanswer: " + d.answer + "\nsection:"
  }

  /** The list comprehension of blocks, one per entry, in order. */
  function Blocks(docs: seq<Doc>): (r: seq<string>)
    ensures |r| == |docs|
  {
    seq(|docs|, i requires 0 <= i < |docs| => Block(docs[i]))
  }

  function Context(docs: seq<Doc>): string {
    Join(BlockSeparator, Blocks(docs))
  }

  function BuildPrompt(query: string, docs: seq<Doc>): string {
    Strip(Preamble + query + ContextHeading + Context(docs))
  }

  /** Where block `i` starts inside the context. */
  function Offset(docs: seq<Doc>, i: nat): nat
    requires i < |docs|
  {
    PartOffset(BlockSeparator, Blocks(docs), i)
  }

  /** The blocks as the final `strip` leaves them: every block but the
      last as rendered, the last cut after the last non-space character of
      its section. */
  function TrimmedBlocks(docs: seq<Doc>): (r: seq<string>)
    requires |docs| > 0
    ensures |r| == |docs|
    ensures forall i :: 0 <= i < |docs| - 1 ==> r[i] == Block(docs[i])
  {
    var last := docs[|docs| - 1];
    Blocks(docs)[..|docs| - 1] + [BlockHead(last) + RStrip(" " + last.section)]
  }

  /** A block is its head, the section and a blank line; the head is not
      empty, ends in `:` and the block starts with `c`. */
  lemma BlockHeadFacts(d: Doc)
    ensures Block(d) == BlockHead(d) + (" " + d.section + "\n\n")
    ensures |BlockHead(d)| > 0 && BlockHead(d)[|BlockHead(d)| - 1] == ':' && Block(d)[0] == 'c'
  {
  }

  /** A block's head quotes the entry's category, question and answer. */
  lemma BlockHeadQuotes(d: Doc)
    ensures Contains(BlockHead(d), d.category)
    ensures Contains(BlockHead(d), d.question)
    ensures Contains(BlockHead(d), d.answer)
  {
    var h := BlockHead(d);
    ContainsPiece(h, 0, h, "category: ", d.category,
      "\nquestion: " + d.question + "\nanswer: " + d.answer + "\nsection:");
    ContainsPiece(h, 0, h, "category: " + d.category + "\nquestion: ", d.question,
      "\nanswer: " + d.answer + "\nsection:");
    ContainsPiece(h, 0, h, "category: " + d.category + "\nquestion: " + d.question + "\nanswer: ", d.answer,
      "\nsection:");
  }

  /** Stripping a block's right end keeps its head and cuts its section's
      trailing whitespace. */
  lemma StrippedBlock(d: Doc)
    ensures RStrip(Block(d)) == BlockHead(d) + RStrip(" " + d.section)
  {
    BlockHeadFacts(d);
    RStripAfter(BlockHead(d), " " + d.section + "\n\n");
    RStripIgnoresSpaceTail(" " + d.section, "\n\n");
  }

  lemma PreambleHead()
    ensures |Preamble| > 0 && Preamble[0] == 'Y'
  {
  }

  /** The context is the blocks in entry order: block `i` sits at
      `Offset(docs, i)`, a blank-line separator follows every block but
      the last, and the last block ends the context. */
  lemma ContextLayout(docs: seq<Doc>, i: nat)
    requires i < |docs|
    ensures Offset(docs, i) + |Block(docs[i])| <= |Context(docs)|
    ensures Context(docs)[Offset(docs, i)..Offset(docs, i) + |Block(docs[i])|] == Block(docs[i])
    ensures i + 1 < |docs| ==>
      && Offset(docs, i + 1) == Offset(docs, i) + |Block(docs[i])| + 2
      && Offset(docs, i + 1) <= |Context(docs)|
      && Context(docs)[Offset(docs, i) + |Block(docs[i])|..Offset(docs, i + 1)] == BlockSeparator
    ensures i + 1 == |docs| ==> Offset(docs, i) + |Block(docs[i])| == |Context(docs)|
  {
    JoinPartAt(BlockSeparator, Blocks(docs), i);
    if i + 1 < |docs| {
      JoinSepAfter(BlockSeparator, Blocks(docs), i);
    }
  }

  /** Stripping the context's right end touches only the last block. */
  lemma StrippedContext(docs: seq<Doc>)
    requires |docs| > 0
    ensures RStrip(Context(docs)) == Join(BlockSeparator, TrimmedBlocks(docs))
  {
    var parts := Blocks(docs);
    var last := docs[|docs| - 1];
    BlockHeadFacts(last);
    assert parts[|parts| - 1][0] == 'c';
    RStripJoin(BlockSeparator, parts);
    StrippedBlock(last);
  }

  /** A rendered template `x + ContextHeading + context` whose first
      character is not whitespace, with no entries, trims to `x` and the
      heading's `CONTEXT:`. */
  lemma StrippedWithoutResults(x: string)
    requires |x| > 0 && !IsSpace(x[0])
    ensures Context([]) == ""
    ensures Strip(x + ContextHeading + Context([])) == x + "\n\nCONTEXT:"
  {
    var m := x + "\n\nCONTEXT:";
    assert x + ContextHeading + Context([]) == m + " \n";
    StripKeepsHead(m + " \n");
    RStripUnique(m, " \n");
  }

  /** With entries, trimming such a rendering keeps `x`, the heading and
      the trimmed blocks. */
  lemma StrippedWithResults(x: string, docs: seq<Doc>)
    requires |x| > 0 && !IsSpace(x[0]) && |docs| > 0
    ensures Strip(x + ContextHeading + Context(docs)) == x + ContextHeading + Join(BlockSeparator, TrimmedBlocks(docs))
  {
    var c := Context(docs);
    JoinPartAt(BlockSeparator, Blocks(docs), 0);
    BlockHeadFacts(docs[0]);
    assert c[0] == Block(docs[0])[0];
    assert !AllSpace(c);
    StripKeepsHead(x + ContextHeading + c);
    RStripAppend(x + ContextHeading, c);
    StrippedContext(docs);
  }

  /** The instructions and the question open the prompt. */
  lemma QuestionLeads(query: string)
    ensures |Preamble + query| > 0 && !IsSpace((Preamble + query)[0])
  {
    PreambleHead();
    assert (Preamble + query)[0] == Preamble[0];
  }

  /** With no entries the context is empty and the prompt is the full
      instruction template with the question, trimmed after `CONTEXT:`. */
  lemma PromptWithoutResults(query: string)
    ensures Context([]) == ""
    ensures BuildPrompt(query, []) == Preamble + query + "\n\nCONTEXT:"
  {
    QuestionLeads(query);
    StrippedWithoutResults(Preamble + query);
  }

  /** With entries, the prompt is the instructions, the question, the
      heading and the blocks in entry order separated by blank lines, with
      only the last block's trailing whitespace stripped. */
  lemma PromptWithResults(query: string, docs: seq<Doc>)
    requires |docs| > 0
    ensures BuildPrompt(query, docs) == Preamble + query + ContextHeading + Join(BlockSeparator, TrimmedBlocks(docs))
  {
    QuestionLeads(query);
    StrippedWithResults(Preamble + query, docs);
  }

  /** The heading opens with `CONTEXT:`, whatever follows it. */
  lemma HeadingOpens(x: string, j: string)
    ensures x + "\n\nCONTEXT:" <= x + ContextHeading + j
  {
    assert x + ContextHeading + j == (x + "\n\nCONTEXT:") + (" \n" + j);
  }

  /** Whatever the entries, a rendering `x + ContextHeading + context`
      trims to something that opens with `x` and `CONTEXT:`. */
  lemma StrippedHasHead(x: string, docs: seq<Doc>)
    requires |x| > 0 && !IsSpace(x[0])
    ensures x + "\n\nCONTEXT:" <= Strip(x + ContextHeading + Context(docs))
  {
    if |docs| == 0 {
      StrippedWithoutResults(x);
    } else {
      StrippedWithResults(x, docs);
      HeadingOpens(x, Join(BlockSeparator, TrimmedBlocks(docs)));
    }
  }

  /** Whatever the entries, the prompt opens with the instructions and the
      question. */
  lemma PromptHasQuestion(query: string, docs: seq<Doc>)
    ensures Preamble + query + "\n\nCONTEXT:" <= BuildPrompt(query, docs)
  {
    QuestionLeads(query);
    StrippedHasHead(Preamble + query, docs);
  }

  /** A string that opens with `a + w + b` contains `w`. */
  lemma LeadingPieceContained(s: string, a: string, w: string, b: string)
    requires a + w + b <= s
    ensures Contains(s, w)
  {
    var piece := a + w + b;
    assert s[0..|piece|] == piece;
    ContainsPiece(s, 0, piece, a, w, b);
  }

  /** Whatever the entries, the prompt quotes the question. */
  lemma PromptQuotesQuestion(query: string, docs: seq<Doc>)
    ensures Contains(BuildPrompt(query, docs), query)
  {
    PromptHasQuestion(query, docs);
    LeadingPieceContained(BuildPrompt(query, docs), Preamble, query, "\n\nCONTEXT:");
  }

  /** Whatever survives of entry `i`'s block holds its head. */
  lemma TrimmedBlockHead(docs: seq<Doc>, i: nat)
    requires i < |docs|
    ensures BlockHead(docs[i]) <= TrimmedBlocks(docs)[i]
  {
    BlockHeadFacts(docs[i]);
  }

  /** A string in entry `i`'s head is quoted by any `x` followed by the
      trimmed blocks. */
  lemma TrimmedQuotes(x: string, docs: seq<Doc>, i: nat, w: string)
    requires i < |docs| && Contains(BlockHead(docs[i]), w)
    ensures Contains(x + Join(BlockSeparator, TrimmedBlocks(docs)), w)
  {
    var parts := TrimmedBlocks(docs);
    var h := BlockHead(docs[i]);
    TrimmedBlockHead(docs, i);
    assert parts[i] == h + parts[i][|h|..];
    ContainsInLeft(h, parts[i][|h|..], w);
    ContainsInJoin(BlockSeparator, parts, i, w);
    ContainsInRight(x, Join(BlockSeparator, parts), w);
  }

  /** The prompt quotes every entry's category, question and answer. */
  lemma PromptQuotesEntry(query: string, docs: seq<Doc>, i: nat)
    requires i < |docs|
    ensures var p := BuildPrompt(query, docs);
      Contains(p, docs[i].category) && Contains(p, docs[i].question) && Contains(p, docs[i].answer)
  {
    var x := Preamble + query + ContextHeading;
    PromptWithResults(query, docs);
    BlockHeadQuotes(docs[i]);
    TrimmedQuotes(x, docs, i, docs[i].category);
    TrimmedQuotes(x, docs, i, docs[i].question);
    TrimmedQuotes(x, docs, i, docs[i].answer);
  }
}
