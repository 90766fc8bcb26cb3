/** The run configuration of `crew.py`: the model table of `initialize_llm`,
    the agents, tools and tasks `create_crew` builds, the names of the files
    it writes and what it writes into them. The crew's execution, the
    Markdown and PDF converters and the clock are inputs. */
module Crew {
  import opened Text

  // ----- initialize_llm -----

  datatype Provider = OpenAI | Groq

  /** A chat model as `initialize_llm` configures it. */
  datatype LlmConfig = LlmConfig(provider: Provider, model: string, temperature: real, apiKey: string)

  /** A configured model, or the `ValueError` raised for an unknown option. */
  datatype LlmResult = Llm(config: LlmConfig) | ValueError(message: string)

  const InvalidOption: string := "Invalid model option selected"
  const Temperature: real := 0.1
  /** The option strings `initialize_llm` recognises, in the order it tests them. */
  const ModelOptions: seq<string> := ["OpenAI GPT-4o Mini", "Llama 3 8B", "Llama 3.1 70B", "Llama 3.1 8B"]

  function InitializeLlm(option: string, openaiKey: string, groqKey: string): (r: LlmResult)
    ensures r.Llm? <==> option in ModelOptions
    ensures r.ValueError? ==> r.message == InvalidOption
    ensures r.Llm? ==> r.config.temperature == Temperature
    ensures r.Llm? ==> r.config.apiKey == (if r.config.provider == OpenAI then openaiKey else groqKey)
  {
    if option == "OpenAI GPT-4o Mini" then Llm(LlmConfig(OpenAI, "gpt-4o-mini", 0.1, openaiKey))
    else if option == "Llama 3 8B" then Llm(LlmConfig(Groq, "llama3-8b-8192", 0.1, groqKey))
    else if option == "Llama 3.1 70B" then Llm(LlmConfig(Groq, "llama-3.1-70b-versatile", 0.1, groqKey))
    else if option == "Llama 3.1 8B" then Llm(LlmConfig(Groq, "llama-3.1-8b-instant", 0.1, groqKey))
    else ValueError(InvalidOption)
  }

  /** Which option selects a given model: the inverse of the table. */
  function OptionFor(model: string): Option<string>
  {
    if model == "gpt-4o-mini" then Some("OpenAI GPT-4o Mini")
    else if model == "llama3-8b-8192" then Some("Llama 3 8B")
    else if model == "llama-3.1-70b-versatile" then Some("Llama 3.1 70B")
    else if model == "llama-3.1-8b-instant" then Some("Llama 3.1 8B")
    else None
  }

  /** The table is one-to-one: every recognised option names its own model,
      and the model determines the option back. */
  lemma OptionModelRoundTrip(option: string, model: string, openaiKey: string, groqKey: string)
    ensures InitializeLlm(option, openaiKey, groqKey).Llm? ==>
              OptionFor(InitializeLlm(option, openaiKey, groqKey).config.model) == Some(option)
    ensures OptionFor(model) == Some(option) ==>
              InitializeLlm(option, openaiKey, groqKey).Llm? &&
              InitializeLlm(option, openaiKey, groqKey).config.model == model
  {
  }

  /** The four rows of the table: only the OpenAI option uses the OpenAI
      key, and every other recognised option uses the Groq key. */
  lemma ModelTable(openaiKey: string, groqKey: string)
    ensures InitializeLlm("OpenAI GPT-4o Mini", openaiKey, groqKey) == Llm(LlmConfig(OpenAI, "gpt-4o-mini", 0.1, openaiKey))
    ensures InitializeLlm("Llama 3 8B", openaiKey, groqKey) == Llm(LlmConfig(Groq, "llama3-8b-8192", 0.1, groqKey))
    ensures InitializeLlm("Llama 3.1 70B", openaiKey, groqKey) == Llm(LlmConfig(Groq, "llama-3.1-70b-versatile", 0.1, groqKey))
    ensures InitializeLlm("Llama 3.1 8B", openaiKey, groqKey) == Llm(LlmConfig(Groq, "llama-3.1-8b-instant", 0.1, groqKey))
  {
  }

  // ----- agents, tools and tasks -----

  datatype Tool = RedditSentiment | SerperSearch | YahooFinanceNews | YfTechAnalysis | YfFundamentalAnalysis

  datatype Agent = Agent(role: string, goal: string, tools: seq<Tool>, llm: LlmConfig)

  datatype TaskKind = Research | TechnicalAnalysis | FundamentalAnalysis | Report

  datatype Task = Task(kind: TaskKind, agent: Agent)

  datatype Process = Sequential | Hierarchical

  datatype CrewSetup = CrewSetup(agents: seq<Agent>, tasks: seq<Task>, process: Process, cache: bool)

  function Researcher(llm: LlmConfig): Agent
  {
    Agent("Senior Stock Market Researcher", "Gather and analyze comprehensive data about {stock_symbol}",
          [RedditSentiment, SerperSearch, YahooFinanceNews], llm)
  }

  function TechnicalAnalyst(llm: LlmConfig): Agent
  {
    Agent("Expert Technical Analyst", "Perform an in-depth technical analysis on {stock_symbol}",
          [YfTechAnalysis], llm)
  }

  function FundamentalAnalyst(llm: LlmConfig): Agent
  {
    Agent("Senior Fundamental Analyst", "Conduct a comprehensive fundamental analysis of {stock_symbol}",
          [YfFundamentalAnalysis], llm)
  }

  function Reporter(llm: LlmConfig): Agent
  {
    Agent("Chief Investment Strategist",
          "Synthesize all analyses to create a definitive investment report on {stock_symbol}",
          [RedditSentiment, SerperSearch, YfFundamentalAnalysis, YfTechAnalysis, YahooFinanceNews], llm)
  }

  /** The crew `create_crew` assembles around one model. */
  function BuildCrew(llm: LlmConfig): (crew: CrewSetup)
    ensures |crew.agents| == 4 && |crew.tasks| == 4
    ensures crew.tasks[0].agent == crew.agents[0] && crew.tasks[1].agent == crew.agents[1] &&
            crew.tasks[2].agent == crew.agents[2] && crew.tasks[3].agent == crew.agents[3]
    ensures crew.agents[0].llm == llm && crew.agents[1].llm == llm &&
            crew.agents[2].llm == llm && crew.agents[3].llm == llm
    ensures crew.process == Sequential && crew.cache
  {
    var agents := [Researcher(llm), TechnicalAnalyst(llm), FundamentalAnalyst(llm), Reporter(llm)];
    CrewSetup(agents,
              [Task(Research, agents[0]), Task(TechnicalAnalysis, agents[1]),
               Task(FundamentalAnalysis, agents[2]), Task(Report, agents[3])],
              Sequential, true)
  }

  function ToolSet(a: Agent): set<Tool>
  {
    set i | 0 <= i < |a.tools| :: a.tools[i]
  }

  /** The reporter can use every tool any other agent has; its tool set is
      exactly the union of theirs. */
  lemma ReporterHoldsEveryTool(llm: LlmConfig)
    ensures forall a :: a in BuildCrew(llm).agents ==> ToolSet(a) <= ToolSet(Reporter(llm))
    ensures ToolSet(Reporter(llm)) ==
              ToolSet(Researcher(llm)) + ToolSet(TechnicalAnalyst(llm)) + ToolSet(FundamentalAnalyst(llm))
  {
    ToolSetIs(Reporter(llm), {RedditSentiment, SerperSearch, YfFundamentalAnalysis, YfTechAnalysis, YahooFinanceNews});
    ToolSetIs(Researcher(llm), {RedditSentiment, SerperSearch, YahooFinanceNews});
    ToolSetIs(TechnicalAnalyst(llm), {YfTechAnalysis});
    ToolSetIs(FundamentalAnalyst(llm), {YfFundamentalAnalysis});
  }

  /** An agent's tool set is the set of tools its list holds. */
  lemma ToolSetIs(a: Agent, ts: set<Tool>)
    requires forall t :: t in ts <==> t in a.tools
    ensures ToolSet(a) == ts
  {
    forall t | t in a.tools
      ensures t in ToolSet(a)
    {
      var i :| 0 <= i < |a.tools| && a.tools[i] == t;
    }
  }

  /** The four tasks run one after another in the fixed order research,
      technical, fundamental, report, owned by the researcher, the technical
      analyst, the fundamental analyst and the reporter. */
  lemma TaskOrder(llm: LlmConfig)
    ensures var c := BuildCrew(llm);
            c.process == Sequential &&
            c.tasks[0].kind == Research && c.tasks[1].kind == TechnicalAnalysis &&
            c.tasks[2].kind == FundamentalAnalysis && c.tasks[3].kind == Report &&
            c.tasks[0].agent.role == "Senior Stock Market Researcher" &&
            c.tasks[1].agent.role == "Expert Technical Analyst" &&
            c.tasks[2].agent.role == "Senior Fundamental Analyst" &&
            c.tasks[3].agent.role == "Chief Investment Strategist"
  {
  }

  // ----- file names -----

  const ResultsDir: string := "./crew_results/"
  const ReportInfix: string := "_Stock_Report_"
  /** Length of `strftime("%Y-%m-%d")` for a four-digit year. */
  const DateLength: nat := 10

  /** `./crew_results/{stock_symbol}_Stock_Report_{current_date}.{ext}`. */
  function ReportPath(symbol: string, date: string, ext: string): (path: string)
    ensures HasPrefix(ResultsDir, path) && HasSuffix("." + ext, path)
    ensures |path| == |ResultsDir| + |symbol| + |ReportInfix| + |date| + 1 + |ext|
  {
    ResultsDir + symbol + ReportInfix + date + "." + ext
  }

  /** Reads a report path with the given extension back into its symbol and date. */
  function ParseWithExtension(path: string, ext: string): Option<(string, string)>
  {
    var tail := |ReportInfix| + DateLength + 1 + |ext|;
    if |path| < |ResultsDir| + tail || !HasPrefix(ResultsDir, path) || !HasSuffix("." + ext, path) then None
    else
      var stemEnd := |path| - 1 - |ext|;
      var infixAt := stemEnd - DateLength - |ReportInfix|;
      if path[infixAt..stemEnd - DateLength] != ReportInfix then None
      else Some((path[|ResultsDir|..infixAt], path[stemEnd - DateLength..stemEnd]))
  }

  /** Reads any of the three artefact paths back into symbol, date and extension. */
  function ParseReportPath(path: string): Option<(string, string, string)>
  {
    match ParseWithExtension(path, "md")
    case Some(sd) => Some((sd.0, sd.1, "md"))
    case None =>
      match ParseWithExtension(path, "html")
      case Some(sd) => Some((sd.0, sd.1, "html"))
      case None =>
        match ParseWithExtension(path, "pdf")
        case Some(sd) => Some((sd.0, sd.1, "pdf"))
        case None => None
  }

  lemma ParseWithExtensionOfPath(symbol: string, date: string, ext: string)
    requires |date| == DateLength
    ensures ParseWithExtension(ReportPath(symbol, date, ext), ext) == Some((symbol, date))
  {
    var path := ReportPath(symbol, date, ext);
    var stemEnd := |path| - 1 - |ext|;
    var infixAt := stemEnd - DateLength - |ReportInfix|;
    assert path == ResultsDir + symbol + ReportInfix + date + ("." + ext);
    assert path[..|ResultsDir|] == ResultsDir;
    assert path[|path| - |"." + ext|..] == "." + ext;
    assert path[infixAt..stemEnd - DateLength] == ReportInfix;
    assert path[|ResultsDir|..infixAt] == symbol;
    assert path[stemEnd - DateLength..stemEnd] == date;
  }

  lemma NotOtherExtension(symbol: string, date: string, ext: string, other: string)
    requires ext in {"md", "html", "pdf"} && other in {"md", "html", "pdf"} && ext != other
    ensures ParseWithExtension(ReportPath(symbol, date, ext), other) == None
  {
    // The three extensions end in different letters.
    var path := ReportPath(symbol, date, ext);
    assert path == (ResultsDir + symbol + ReportInfix + date + ".") + ext;
    assert path[|path| - 1] == ext[|ext| - 1];
    assert ("." + other)[|other|] == other[|other| - 1];
    LastOfSuffix(path, "." + other);
  }

  lemma LastOfSuffix(s: string, t: string)
    ensures HasSuffix(t, s) && |t| >= 1 ==> s[|s| - 1] == t[|t| - 1]
  {
    if HasSuffix(t, s) && |t| >= 1 {
      assert s[|s| - 1] == s[|s| - |t|..][|t| - 1];
    }
  }

  /** The three artefact paths differ only in their extension: each one reads
      back to the symbol, date and extension it was made from, so no two of
      them coincide. */
  lemma ReportPathRoundTrip(symbol: string, date: string, ext: string)
    requires |date| == DateLength && ext in {"md", "html", "pdf"}
    ensures ParseReportPath(ReportPath(symbol, date, ext)) == Some((symbol, date, ext))
  {
    ParseWithExtensionOfPath(symbol, date, ext);
    if ext != "md" {
      NotOtherExtension(symbol, date, ext, "md");
    }
    if ext == "pdf" {
      NotOtherExtension(symbol, date, ext, "html");
    }
  }

  lemma ExamplePaths()
    ensures ReportPath("ACME", "2024-01-01", "md") == "./crew_results/ACME_Stock_Report_2024-01-01.md"
  {
  }

  // ----- the usage appendix of the log -----

  /** `result.token_usage`. */
  datatype Usage = Usage(promptTokens: nat, completionTokens: nat, totalTokens: nat)

  /** What the four writes append to the log after the run. */
  function UsageAppendix(u: Usage): (text: string)
    ensures HasPrefix("\nUsage Details:\n", text) && text[|text| - 1] == '\n'
  {
    "\nUsage Details:\n" +
    ("Prompt Tokens: " + NatStr(u.promptTokens) + "\n") +
    ("Completion Tokens: " + NatStr(u.completionTokens) + "\n") +
    ("Total Tokens: " + NatStr(u.totalTokens) + "\n")
  }

  /** Reads an appendix back: an empty line, the header, the three counts in
      order, and nothing after the final newline. */
  function ParseUsage(text: string): Option<Usage>
  {
    var lines := Lines(text);
    if |lines| != 6 || lines[0] != "" || lines[1] != "Usage Details:" || lines[5] != "" then None
    else if !HasPrefix("Prompt Tokens: ", lines[2]) || !HasPrefix("Completion Tokens: ", lines[3]) ||
            !HasPrefix("Total Tokens: ", lines[4]) then None
    else
      match (ParseNat(lines[2][15..]), ParseNat(lines[3][19..]), ParseNat(lines[4][14..]))
      case (Some(p), Some(c), Some(t)) => Some(Usage(p, c, t))
      case _ => None
  }

  lemma DigitsOneLine(tag: string, n: nat)
    requires NoNewline(tag)
    ensures NoNewline(tag + NatStr(n))
  {
  }

  /** The appendix is the header followed by the prompt, completion and
      total lines in that order, and it reads back to the same counts. */
  lemma UsageRoundTrip(u: Usage)
    ensures ParseUsage(UsageAppendix(u)) == Some(u)
  {
    var p := "Prompt Tokens: " + NatStr(u.promptTokens);
    var c := "Completion Tokens: " + NatStr(u.completionTokens);
    var t := "Total Tokens: " + NatStr(u.totalTokens);
    UsageAppendixLines(u);
    assert p[15..] == NatStr(u.promptTokens);
    assert c[19..] == NatStr(u.completionTokens);
    assert t[14..] == NatStr(u.totalTokens);
    ParseNatStr(u.promptTokens);
    ParseNatStr(u.completionTokens);
    ParseNatStr(u.totalTokens);
  }

  lemma UsageAppendixLines(u: Usage)
    ensures Lines(UsageAppendix(u)) ==
              ["", "Usage Details:", "Prompt Tokens: " + NatStr(u.promptTokens),
               "Completion Tokens: " + NatStr(u.completionTokens), "Total Tokens: " + NatStr(u.totalTokens), ""]
  {
    var p := "Prompt Tokens: " + NatStr(u.promptTokens);
    var c := "Completion Tokens: " + NatStr(u.completionTokens);
    var t := "Total Tokens: " + NatStr(u.totalTokens);
    AppendixShape(u);
    DigitsOneLine("Prompt Tokens: ", u.promptTokens);
    DigitsOneLine("Completion Tokens: ", u.completionTokens);
    DigitsOneLine("Total Tokens: ", u.totalTokens);
    FourLines("Usage Details:", p, c, t);
  }

  lemma AppendixShape(u: Usage)
    ensures UsageAppendix(u) ==
              "" + "\n" + ("Usage Details:" + "\n" + (("Prompt Tokens: " + NatStr(u.promptTokens)) + "\n" +
              (("Completion Tokens: " + NatStr(u.completionTokens)) + "\n" +
              (("Total Tokens: " + NatStr(u.totalTokens)) + "\n" + ""))))
  {
    assert "\nUsage Details:\n" == "" + "\n" + "Usage Details:" + "\n";
  }

  lemma FourLines(h: string, p: string, c: string, t: string)
    requires NoNewline(h) && NoNewline(p) && NoNewline(c) && NoNewline(t)
    ensures Lines("" + "\n" + (h + "\n" + (p + "\n" + (c + "\n" + (t + "\n" + ""))))) == ["", h, p, c, t, ""]
  {
    LinesOfTerminated(t, "");
    LinesOfTerminated(c, t + "\n" + "");
    LinesOfTerminated(p, c + "\n" + (t + "\n" + ""));
    LinesOfTerminated(h, p + "\n" + (c + "\n" + (t + "\n" + "")));
    LinesOfTerminated("", h + "\n" + (p + "\n" + (c + "\n" + (t + "\n" + ""))));
  }

  // ----- create_crew -----

  /** The file system under the working directory, path to contents. */
  class ResultFiles {
    var files: map<string, string>

    constructor (initial: map<string, string>)
      ensures files == initial
    {
      files := initial;
    }

    /** `open(path, 'w')` followed by one write. */
    method Write(path: string, text: string)
      modifies this
      ensures files == old(files)[path := text]
    {
      files := files[path := text];
    }

    /** `open(path, 'a')`, which creates a missing file, followed by one write. */
    method Append(path: string, text: string)
      modifies this
      ensures files == old(files)[path := FileText(old(files), path) + text]
    {
      files := files[path := FileText(files, path) + text];
    }
  }

  function FileText(files: map<string, string>, path: string): string
  {
    if path in files then files[path] else ""
  }

  /** What one `crew.kickoff` produced: what it printed, the report text
      (`str(result)`) and the token usage. */
  datatype Run = Run(console: string, report: string, usage: Usage)

  /** What `create_crew` returns, or the `ValueError` it raises. */
  datatype CrewOutcome = ReportFiles(mdPath: string, pdfPath: string) | ConfigError(message: string)

  /** `create_crew`: configure the model, build and run the crew, write the
      log, then the Markdown report, its HTML rendering and the PDF made from
      that, and return the Markdown and PDF paths. An unknown option stops
      it before anything is built, run or written. */
  method CreateCrew(symbol: string, option: string, openaiKey: string, groqKey: string,
                    logPath: string, date: string,
                    kickoff: (CrewSetup, string) -> Run, markdown: string -> string, renderPdf: string -> string,
                    disk: ResultFiles)
    returns (r: CrewOutcome)
    modifies disk
    ensures InitializeLlm(option, openaiKey, groqKey).ValueError? ==>
              r == ConfigError(InvalidOption) && disk.files == old(disk.files)
    ensures InitializeLlm(option, openaiKey, groqKey).Llm? ==>
              var run := kickoff(BuildCrew(InitializeLlm(option, openaiKey, groqKey).config), symbol);
              var md, html, pdf := ReportPath(symbol, date, "md"), ReportPath(symbol, date, "html"),
                                   ReportPath(symbol, date, "pdf");
              var afterLog := old(disk.files)[logPath := run.console + UsageAppendix(run.usage)];
              r == ReportFiles(md, pdf) &&
              disk.files == afterLog[md := run.report][html := markdown(run.report)]
                                    [pdf := renderPdf(markdown(run.report))]
  {
    var llm := InitializeLlm(option, openaiKey, groqKey);
    if llm.ValueError? {
      return ConfigError(llm.message);
    }
    var crew := BuildCrew(llm.config);
    var result := kickoff(crew, symbol);
    disk.Write(logPath, result.console);
    disk.Append(logPath, UsageAppendix(result.usage));
    ghost var afterLog := disk.files;
    assert afterLog == old(disk.files)[logPath := result.console + UsageAppendix(result.usage)];
    var crewResultFilePath := ReportPath(symbol, date, "md");
    disk.Write(crewResultFilePath, result.report);
    var htmlContent := markdown(disk.files[crewResultFilePath]);
    assert htmlContent == markdown(result.report);
    var crewResultFilePathHtml := ReportPath(symbol, date, "html");
    disk.Write(crewResultFilePathHtml, htmlContent);
    var crewResultFilePathPdf := ReportPath(symbol, date, "pdf");
    disk.Write(crewResultFilePathPdf, renderPdf(disk.files[crewResultFilePathHtml]));
    return ReportFiles(crewResultFilePath, crewResultFilePathPdf);
  }
}
