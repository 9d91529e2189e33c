/** The TypeScript code reviewer (src/core/agents/reviewer.ts): it shows the
    model the head of every front-end file and nothing of the back end. */
module TsReviewer {
  import opened Results
  import opened Json
  import opened LlmClient
  import opened TsTypes
  import opened TsBaseAgent

  const SystemPrompt := "You are a Senior Developer. Review the code for errors, security, and best practices.\n  Output JSON:\n  {\n    \"score\": 85,\n    \"issues\": [\n      {\"severity\": \"high\", \"file\": \"filename\", \"issue\": \"description\", \"suggestion\": \"fix\"}\n    ]\n  }"

  const CodeReviewer := Agent(Reviewer, "Senior Code Reviewer", SystemPrompt)

  const Task := "Review this code."

  /** How many characters of each file the model sees. */
  const Shown: nat := 500

  function Min(a: nat, b: nat): nat {
    if a < b then a else b
  }

  /** One file's part of the summary: its path, then at most its first
      500 characters, then an ellipsis, which is there even when nothing was cut. */
  function Segment(f: CodeFile): (r: string)
    ensures |r| == |f.path| + Min(Shown, |f.content|) + 16
    ensures |f.content| <= Shown ==> r == "File: " + f.path + "\nCode:\n" + f.content + "..."
    ensures r[..13 + |f.path|] == "File: " + f.path + "\nCode:\n"
    ensures r[13 + |f.path|..13 + |f.path| + Min(Shown, |f.content|)] == f.content[..Min(Shown, |f.content|)]
    ensures r[|r| - 3..] == "..."
  {
    var head := f.content[..Min(Shown, |f.content|)];
    assert |f.content| <= Shown ==> head == f.content;
    var r := "File: " + f.path + "\nCode:\n" + head + "...";
    assert r[13 + |f.path|..13 + |f.path| + |head|] == head;
    r
  }

  /** `xs.join(sep)`. */
  function Join(xs: seq<string>, sep: string): string {
    if |xs| == 0 then ""
    else if |xs| == 1 then xs[0]
    else xs[0] + sep + Join(xs[1..], sep)
  }

  lemma {:induction false} JoinAppend(xs: seq<string>, x: string, sep: string)
    ensures Join(xs + [x], sep) == if xs == [] then x else Join(xs, sep) + sep + x
    decreases |xs|
  {
    if |xs| > 1 {
      assert (xs + [x])[1..] == xs[1..] + [x];
      JoinAppend(xs[1..], x, sep);
    } else if |xs| == 1 {
      assert (xs + [x])[1..] == [x];
    }
  }

  /** A joined list starts with its first element. */
  lemma {:induction false} JoinStartsWithHead(xs: seq<string>, sep: string)
    requires |xs| > 0
    ensures |Join(xs, sep)| >= |xs[0]|
  {
  }

  function Segments(files: seq<CodeFile>): (r: seq<string>)
    ensures |r| == |files|
    ensures forall i :: 0 <= i < |files| ==> r[i] == Segment(files[i])
  {
    seq(|files|, i requires 0 <= i < |files| => Segment(files[i]))
  }

  /** The context `reviewCode` hands to `askJson`. */
  function CodeSummary(frontend: seq<CodeFile>): string {
    Join(Segments(frontend), "\n")
  }

  /** One segment per file, in list order, separated by line breaks. */
  lemma SummaryAppend(frontend: seq<CodeFile>, f: CodeFile)
    ensures CodeSummary(frontend + [f])
         == if frontend == [] then Segment(f) else CodeSummary(frontend) + "\n" + Segment(f)
  {
    assert Segments(frontend + [f]) == Segments(frontend) + [Segment(f)];
    JoinAppend(Segments(frontend), Segment(f), "\n");
  }

  /** The summary is empty exactly when there are no front-end files. */
  lemma SummaryEmptyIff(frontend: seq<CodeFile>)
    ensures CodeSummary(frontend) == "" <==> frontend == []
  {
    if frontend != [] {
      JoinStartsWithHead(Segments(frontend), "\n");
    }
  }

  /** `reviewCode`. */
  function ReviewCode(frontend: seq<CodeFile>, backend: seq<CodeFile>, client: Client, parse: Parser): Result<Json, Error> {
    AskJson(CodeReviewer, Task, CodeSummary(frontend), client, parse)
  }

  /** The user message the model receives: the bare task when there are no
      front-end files, otherwise the summary as context before the request. */
  lemma ReviewMessage(frontend: seq<CodeFile>)
    ensures frontend == [] ==> RequestFor(JsonParams(AskJsonParams(CodeReviewer, Task, CodeSummary(frontend)))).messages[1] == Message("user", Task)
    ensures frontend != [] ==>
              (RequestFor(JsonParams(AskJsonParams(CodeReviewer, Task, CodeSummary(frontend)))).messages[1]
               == Message("user", "Context:\n" + CodeSummary(frontend) + "\n\nTask: " + Task))
  {
    SummaryEmptyIff(frontend);
  }

  /** The back-end files never reach the model. */
  lemma BackendIgnored(frontend: seq<CodeFile>, backend1: seq<CodeFile>, backend2: seq<CodeFile>, client: Client, parse: Parser)
    ensures ReviewCode(frontend, backend1, client, parse) == ReviewCode(frontend, backend2, client, parse)
  {
  }
}
