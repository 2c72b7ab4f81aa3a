/**
 * The three shell scripts rendered from the result ledger (main.go, the
 * text/template executions after the join). Each template is
 * `{{- range ... -}}`, a blank line, two command lines, a blank line,
 * `{{ end -}}`: the trim markers drop the text before the first command, and
 * the newline pair before `{{ end -}}` is kept, so every record contributes
 * two command lines followed by one empty line.
 */
module Scripts {
  import opened Wrappers
  import opened Names

  /** The three artifacts; the registry ones carry the custom registry host. */
  datatype Script = PullScript | RegistryScript(registry: string) | NerdctlScript(registry: string)

  /** What a downstream host does with one block: pull `from`, then tag it as `to`. */
  datatype Retag = Retag(from: string, to: string)

  const Docker: string := "docker "
  const Nerdctl: string := "nerdctl -n k8s.io "

  /** Two command lines and the blank line that ends every block. */
  function Stanza(first: string, second: string): string
  {
    first + "\n" + second + "\n" + "\n"
  }

  /** The block of a pull-and-tag script run with the command prefix `tool`. */
  function RetagStanza(tool: string, rt: Retag): string
  {
    Stanza(tool + "pull " + rt.from, tool + "tag " + rt.from + " " + rt.to)
  }

  /** The command prefix of the scripts that pull and tag. */
  function ToolOf(script: Script): string
    requires !script.RegistryScript?
  {
    if script.PullScript? then Docker else Nerdctl
  }

  /**
   * What a pull-and-tag script does for one record: the pull script pulls the
   * target; the nerdctl script pulls from the custom registry when one is set
   * and the target otherwise; both tag the result with the original source.
   */
  function RetagOf(script: Script, rec: Record): Retag
    requires !script.RegistryScript?
  {
    match script
    case PullScript => Retag(rec.target, rec.source)
    case NerdctlScript(registry) =>
      if registry != "" then Retag(registry + "/" + rec.source, rec.source) else Retag(rec.target, rec.source)
  }

  function RetagsOf(script: Script, ledger: seq<Record>): seq<Retag>
    requires !script.RegistryScript?
  {
    seq(|ledger|, i requires 0 <= i < |ledger| => RetagOf(script, ledger[i]))
  }

  /** What the registry script does for one block: tag `local` as `remote`, then push `remote`. */
  datatype Push = Push(local: string, remote: string)

  /** The block of the registry script for one push. */
  function PushStanza(p: Push): string
  {
    Stanza("docker tag " + p.local + " " + p.remote, "docker push " + p.remote)
  }

  /** The registry script tags the target as the registry's copy of the source and pushes that copy. */
  function PushOf(registry: string, rec: Record): Push
  {
    Push(rec.target, registry + "/" + rec.source)
  }

  function PushesOf(registry: string, ledger: seq<Record>): seq<Push>
  {
    seq(|ledger|, i requires 0 <= i < |ledger| => PushOf(registry, ledger[i]))
  }

  /**
   * The text one record contributes to a script: two commands of the
   * script's tool and a blank line.
   */
  function Block(script: Script, rec: Record): string
  {
    match script
    case RegistryScript(registry) => PushStanza(PushOf(registry, rec))
    case _ => RetagStanza(ToolOf(script), RetagOf(script, rec))
  }

  /**
   * Every block starts with its script's tool (`docker ` for the pull and
   * registry scripts, `nerdctl -n k8s.io ` for the nerdctl script) and ends
   * with a blank line.
   */
  lemma BlockShape(script: Script, rec: Record)
    ensures var b, tool := Block(script, rec), if script.NerdctlScript? then Nerdctl else Docker;
      && |b| > |tool| + 2 && b[..|tool|] == tool
      && b[|b| - 2] == '\n' && b[|b| - 1] == '\n'
  {
    match script
    case RegistryScript(registry) =>
      var p := PushOf(registry, rec);
      StanzaShape(Docker, "docker tag " + p.local + " " + p.remote, "docker push " + p.remote);
    case _ =>
      var tool, rt := ToolOf(script), RetagOf(script, rec);
      StanzaShape(tool, tool + "pull " + rt.from, tool + "tag " + rt.from + " " + rt.to);
  }

  /** A stanza whose first line starts with `tool` starts with `tool` and ends with a blank line. */
  lemma StanzaShape(tool: string, first: string, second: string)
    requires |tool| <= |first| && first[..|tool|] == tool
    ensures var b := Stanza(first, second);
      && |b| > |tool| + 2 && b[..|tool|] == tool
      && b[|b| - 2] == '\n' && b[|b| - 1] == '\n'
  {
    var rest := "\n" + second + "\n\n";
    assert Stanza(first, second) == first + rest;
    assert rest[|rest| - 2..] == "\n\n";
  }

  /** The whole script: the blocks of the ledger's records, in ledger order. */
  function Render(script: Script, ledger: seq<Record>): (text: string)
    ensures text == "" <==> ledger == []
  {
    if ledger == [] then "" else Block(script, ledger[0]) + Render(script, ledger[1..])
  }

  /** A pull-and-tag script built directly from its retag steps. */
  function RenderRetags(tool: string, retags: seq<Retag>): string
  {
    if retags == [] then "" else RetagStanza(tool, retags[0]) + RenderRetags(tool, retags[1..])
  }

  /** Rendering distributes over concatenation of ledgers. */
  lemma {:induction false} RenderAppend(script: Script, a: seq<Record>, b: seq<Record>)
    ensures Render(script, a + b) == Render(script, a) + Render(script, b)
    decreases |a|
  {
    if a != [] {
      assert (a + b)[1..] == a[1..] + b;
      RenderAppend(script, a[1..], b);
    } else {
      assert a + b == b;
    }
  }

  /** The block of the k-th record sits between the blocks before it and those after it. */
  lemma RenderAt(script: Script, ledger: seq<Record>, k: nat)
    requires k < |ledger|
    ensures Render(script, ledger)
         == Render(script, ledger[..k]) + (Block(script, ledger[k]) + Render(script, ledger[k + 1..]))
  {
    var before, here, after := ledger[..k], ledger[k], ledger[k + 1..];
    assert ledger == before + ([here] + after);
    assert ([here] + after)[1..] == after;
    assert Render(script, [here] + after) == Block(script, here) + Render(script, after);
    RenderAppend(script, before, [here] + after);
  }

  /** The pull-and-tag scripts are exactly the retag stanzas of their records. */
  lemma {:induction false} RenderIsRetags(script: Script, ledger: seq<Record>)
    requires !script.RegistryScript?
    ensures Render(script, ledger) == RenderRetags(ToolOf(script), RetagsOf(script, ledger))
    decreases |ledger|
  {
    if ledger != [] {
      RenderIsRetags(script, ledger[1..]);
      assert RetagsOf(script, ledger)[1..] == RetagsOf(script, ledger[1..]);
    }
  }

  // ---------------------------------------------------------------------
  // Line structure: three lines per record.

  function Newlines(s: string): nat
  {
    if s == [] then 0 else (if s[0] == '\n' then 1 else 0) + Newlines(s[1..])
  }

  lemma {:induction false} NewlinesAppend(a: string, b: string)
    ensures Newlines(a + b) == Newlines(a) + Newlines(b)
    decreases |a|
  {
    if a != [] {
      assert (a + b)[1..] == a[1..] + b;
      NewlinesAppend(a[1..], b);
    } else {
      assert a + b == b;
    }
  }

  lemma {:induction false} NoNewlines(s: string)
    requires '\n' !in s
    ensures Newlines(s) == 0
    decreases |s|
  {
    if s != [] {
      NoNewlines(s[1..]);
    }
  }

  lemma StanzaNewlines(first: string, second: string)
    requires '\n' !in first && '\n' !in second
    ensures Newlines(Stanza(first, second)) == 3
  {
    NoNewlines(first);
    NoNewlines(second);
    assert Newlines("\n") == 1;
    NewlinesAppend(first, "\n");
    NewlinesAppend(first + "\n", second);
    NewlinesAppend(first + "\n" + second, "\n");
    NewlinesAppend(first + "\n" + second + "\n", "\n");
  }

  /** The record's references and the script's registry fit on one line. */
  predicate OneLine(script: Script, rec: Record)
  {
    && '\n' !in rec.source
    && '\n' !in rec.target
    && (!script.PullScript? ==> '\n' !in script.registry)
  }

  /** Every record contributes exactly three lines: two commands and a blank one. */
  lemma {:induction false} RenderNewlines(script: Script, ledger: seq<Record>)
    requires forall rec :: rec in ledger ==> OneLine(script, rec)
    ensures Newlines(Render(script, ledger)) == 3 * |ledger|
    decreases |ledger|
  {
    if ledger != [] {
      var rec := ledger[0];
      assert OneLine(script, rec);
      match script {
        case RegistryScript(registry) =>
          var p := PushOf(registry, rec);
          StanzaNewlines("docker tag " + p.local + " " + p.remote, "docker push " + p.remote);
        case _ =>
          var rt := RetagOf(script, rec);
          StanzaNewlines(ToolOf(script) + "pull " + rt.from, ToolOf(script) + "tag " + rt.from + " " + rt.to);
      }
      NewlinesAppend(Block(script, rec), Render(script, ledger[1..]));
      RenderNewlines(script, ledger[1..]);
    }
  }

  // ---------------------------------------------------------------------
  // Reading a pull-and-tag script back: the retags a host would perform.

  /** The text before the first newline and the text after it. */
  function SplitLine(s: string): (r: Option<(string, string)>)
    ensures r.None? ==> '\n' !in s
    ensures r.Some? ==> '\n' !in r.value.0 && s == r.value.0 + "\n" + r.value.1
  {
    if s == [] then None
    else if s[0] == '\n' then Some(([], s[1..]))
    else
      match SplitLine(s[1..])
      case None => None
      case Some((line, rest)) => Some(([s[0]] + line, rest))
  }

  lemma {:induction false} SplitLineOf(line: string, rest: string)
    requires '\n' !in line
    ensures SplitLine(line + "\n" + rest) == Some((line, rest))
    decreases |line|
  {
    if line != [] {
      assert (line + "\n" + rest)[1..] == line[1..] + "\n" + rest;
      SplitLineOf(line[1..], rest);
      assert [line[0]] + line[1..] == line;
    } else {
      assert line + "\n" + rest == "\n" + rest;
    }
  }

  /** The two command lines of the first block and the text after that block. */
  function ParseStanza(text: string): (r: Option<(string, string, string)>)
    ensures r.Some? ==> text == Stanza(r.value.0, r.value.1) + r.value.2 && |r.value.2| < |text|
  {
    match SplitLine(text)
    case None => None
    case Some((first, afterFirst)) =>
      match SplitLine(afterFirst)
      case None => None
      case Some((second, afterSecond)) =>
        if afterSecond != [] && afterSecond[0] == '\n' then
          var rest := afterSecond[1..];
          assert afterSecond == "\n" + rest;
          assert text == first + "\n" + (second + "\n" + ("\n" + rest));
          assert Stanza(first, second) + rest == first + "\n" + (second + "\n" + ("\n" + rest));
          Some((first, second, rest))
        else
          None
  }

  lemma ParseStanzaOf(first: string, second: string, rest: string)
    requires '\n' !in first && '\n' !in second
    ensures ParseStanza(Stanza(first, second) + rest) == Some((first, second, rest))
  {
    assert Stanza(first, second) + rest == first + "\n" + (second + "\n" + ("\n" + rest));
    SplitLineOf(first, second + "\n" + ("\n" + rest));
    SplitLineOf(second, "\n" + rest);
  }

  /** The retag that the two command lines `first` and `second` perform with prefix `tool`. */
  function ParseRetag(tool: string, first: string, second: string): (r: Option<Retag>)
    ensures r.Some? ==> Stanza(first, second) == RetagStanza(tool, r.value)
  {
    var pull := tool + "pull ";
    if |first| >= |pull| && first[..|pull|] == pull then
      var from := first[|pull|..];
      var tag := tool + "tag " + from + " ";
      if |second| >= |tag| && second[..|tag|] == tag then
        assert first == pull + from;
        assert second == tag + second[|tag|..];
        Some(Retag(from, second[|tag|..]))
      else
        None
    else
      None
  }

  /** Reads a pull-and-tag script back into its retag steps; None if it is not one. */
  function ParseRetags(tool: string, text: string): (r: Option<seq<Retag>>)
    ensures r.Some? ==> RenderRetags(tool, r.value) == text
    decreases |text|
  {
    if text == [] then
      Some([])
    else
      match ParseStanza(text)
      case None => None
      case Some((first, second, rest)) =>
        match ParseRetag(tool, first, second)
        case None => None
        case Some(rt) =>
          match ParseRetags(tool, rest)
          case None => None
          case Some(rts) =>
            assert ([rt] + rts)[1..] == rts;
            Some([rt] + rts)
  }

  predicate RetagOnOneLine(rt: Retag)
  {
    '\n' !in rt.from && '\n' !in rt.to
  }

  /** Reading a rendered pull-and-tag script gives back exactly its retag steps. */
  lemma {:induction false} RetagsRoundTrip(tool: string, retags: seq<Retag>)
    requires '\n' !in tool
    requires forall rt :: rt in retags ==> RetagOnOneLine(rt)
    ensures ParseRetags(tool, RenderRetags(tool, retags)) == Some(retags)
    decreases |retags|
  {
    if retags != [] {
      var rt := retags[0];
      assert RetagOnOneLine(rt);
      var first, second := tool + "pull " + rt.from, tool + "tag " + rt.from + " " + rt.to;
      ParseStanzaOf(first, second, RenderRetags(tool, retags[1..]));
      assert first[..|tool + "pull "|] == tool + "pull ";
      assert second[..|tool + "tag " + rt.from + " "|] == tool + "tag " + rt.from + " ";
      RetagsRoundTrip(tool, retags[1..]);
      assert [rt] + retags[1..] == retags;
    }
  }

  /**
   * The pull script determines the ledger: reading it back yields, for each
   * record in order, "pull the target, tag it as the source".
   */
  lemma PullScriptRecoversLedger(ledger: seq<Record>)
    requires forall rec :: rec in ledger ==> OneLine(PullScript, rec)
    ensures var r := ParseRetags(Docker, Render(PullScript, ledger));
      && r.Some?
      && |r.value| == |ledger|
      && forall i :: 0 <= i < |ledger| ==> r.value[i] == Retag(ledger[i].target, ledger[i].source)
  {
    ScriptParses(PullScript, ledger);
  }

  /** A pull-and-tag script of one-line records reads back as its retag steps. */
  lemma ScriptParses(script: Script, ledger: seq<Record>)
    requires !script.RegistryScript?
    requires forall rec :: rec in ledger ==> OneLine(script, rec)
    ensures ParseRetags(ToolOf(script), Render(script, ledger)) == Some(RetagsOf(script, ledger))
  {
    RenderIsRetags(script, ledger);
    ToolsOnOneLine();
    var rts := RetagsOf(script, ledger);
    forall rt | rt in rts ensures RetagOnOneLine(rt) {
      var i :| 0 <= i < |rts| && rts[i] == rt;
      RetagOfOneLine(script, ledger[i]);
    }
    RetagsRoundTrip(ToolOf(script), rts);
  }

  lemma ToolsOnOneLine()
    ensures '\n' !in Docker && '\n' !in Nerdctl
  {
  }

  lemma RetagOfOneLine(script: Script, rec: Record)
    requires !script.RegistryScript? && OneLine(script, rec)
    ensures RetagOnOneLine(RetagOf(script, rec))
  {
  }

  // ---------------------------------------------------------------------
  // Reading the registry script back: the pushes a host would perform.

  /** A registry script built directly from its pushes. */
  function RenderPushes(pushes: seq<Push>): string
  {
    if pushes == [] then "" else PushStanza(pushes[0]) + RenderPushes(pushes[1..])
  }

  /** The registry script is exactly the push stanzas of its records. */
  lemma {:induction false} RenderIsPushes(registry: string, ledger: seq<Record>)
    ensures Render(RegistryScript(registry), ledger) == RenderPushes(PushesOf(registry, ledger))
    decreases |ledger|
  {
    if ledger != [] {
      RenderIsPushes(registry, ledger[1..]);
      assert PushesOf(registry, ledger)[1..] == PushesOf(registry, ledger[1..]);
    }
  }

  /**
   * The push that the two command lines `first` and `second` perform: the
   * pushed reference is read off the second line, so the tagged one is what
   * the first line holds between `docker tag ` and ` <remote>`.
   */
  function ParsePush(first: string, second: string): (r: Option<Push>)
    ensures r.Some? ==> Stanza(first, second) == PushStanza(r.value)
  {
    var push, tag := "docker push ", "docker tag ";
    if |second| >= |push| && second[..|push|] == push then
      var remote := second[|push|..];
      var cut := |first| - |remote| - 1;
      if cut >= |tag| && first[..|tag|] == tag && first[cut..] == " " + remote then
        var local := first[|tag|..cut];
        assert first == first[..|tag|] + first[|tag|..cut] + first[cut..];
        assert second == push + remote;
        Some(Push(local, remote))
      else
        None
    else
      None
  }

  /** Reads a registry script back into its pushes; None if it is not one. */
  function ParsePushes(text: string): (r: Option<seq<Push>>)
    ensures r.Some? ==> RenderPushes(r.value) == text
    decreases |text|
  {
    if text == [] then
      Some([])
    else
      match ParseStanza(text)
      case None => None
      case Some((first, second, rest)) =>
        match ParsePush(first, second)
        case None => None
        case Some(p) =>
          match ParsePushes(rest)
          case None => None
          case Some(ps) =>
            assert ([p] + ps)[1..] == ps;
            Some([p] + ps)
  }

  predicate PushOnOneLine(p: Push)
  {
    '\n' !in p.local && '\n' !in p.remote
  }

  /** The two lines of one push stanza read back as that push. */
  lemma ParsePushOf(p: Push)
    ensures ParsePush("docker tag " + p.local + " " + p.remote, "docker push " + p.remote) == Some(p)
  {
    var first, second := "docker tag " + p.local + " " + p.remote, "docker push " + p.remote;
    var cut := |first| - |p.remote| - 1;
    assert second[..|"docker push "|] == "docker push ";
    assert second[|"docker push "|..] == p.remote;
    assert first[..|"docker tag "|] == "docker tag ";
    assert first[cut..] == " " + p.remote;
    assert first[|"docker tag "|..cut] == p.local;
  }

  /** Reading a rendered registry script gives back exactly its pushes. */
  lemma {:induction false} PushesRoundTrip(pushes: seq<Push>)
    requires forall p :: p in pushes ==> PushOnOneLine(p)
    ensures ParsePushes(RenderPushes(pushes)) == Some(pushes)
    decreases |pushes|
  {
    if pushes != [] {
      var p := pushes[0];
      assert PushOnOneLine(p);
      ParseStanzaOf("docker tag " + p.local + " " + p.remote, "docker push " + p.remote, RenderPushes(pushes[1..]));
      ParsePushOf(p);
      PushesRoundTrip(pushes[1..]);
      assert [p] + pushes[1..] == pushes;
    }
  }

  /**
   * Reading the registry script back yields, for each record in order, "tag
   * the target as `<registry>/<source>` and push that": the very reference
   * the nerdctl script pulls when the registry is set.
   */
  lemma RegistryScriptPushes(ledger: seq<Record>, registry: string)
    requires registry != ""
    requires forall rec :: rec in ledger ==> OneLine(RegistryScript(registry), rec)
    ensures var r := ParsePushes(Render(RegistryScript(registry), ledger));
      && r.Some?
      && |r.value| == |ledger|
      && forall i :: 0 <= i < |ledger| ==>
           && r.value[i] == Push(ledger[i].target, registry + "/" + ledger[i].source)
           && r.value[i].remote == RetagOf(NerdctlScript(registry), ledger[i]).from
  {
    RenderIsPushes(registry, ledger);
    var ps := PushesOf(registry, ledger);
    forall p | p in ps ensures PushOnOneLine(p) {
      var i :| 0 <= i < |ps| && ps[i] == p;
      assert OneLine(RegistryScript(registry), ledger[i]);
    }
    PushesRoundTrip(ps);
  }

  // ---------------------------------------------------------------------
  // The artifacts of one run.

  datatype Artifacts = Artifacts(pullScript: string, registryScript: Option<string>, nerdctlScript: string)

  /**
   * The artifacts rendered from a final ledger: the pull script always, the
   * registry script only when a custom registry is set, and the nerdctl
   * script always, pulling from the custom registry when one is set.
   */
  function RenderAll(ledger: seq<Record>, customRegistry: string): (a: Artifacts)
    ensures a.registryScript.Some? <==> customRegistry != ""
    ensures (ledger == []) <==> (a.pullScript == "" && a.nerdctlScript == "")
  {
    Artifacts(
      Render(PullScript, ledger),
      if customRegistry != "" then Some(Render(RegistryScript(customRegistry), ledger)) else None,
      Render(NerdctlScript(customRegistry), ledger))
  }

  /**
   * Without a custom registry the nerdctl script performs the very retags of
   * the pull script, in the same order, with the containerd tool.
   */
  lemma NerdctlMirrorsPullScript(ledger: seq<Record>)
    requires forall rec :: rec in ledger ==> OneLine(PullScript, rec)
    ensures ParseRetags(Nerdctl, RenderAll(ledger, "").nerdctlScript) == ParseRetags(Docker, RenderAll(ledger, "").pullScript)
    ensures ParseRetags(Nerdctl, RenderAll(ledger, "").nerdctlScript).Some?
  {
    forall rec | rec in ledger ensures OneLine(NerdctlScript(""), rec) {
      assert OneLine(PullScript, rec);
    }
    ScriptParses(PullScript, ledger);
    ScriptParses(NerdctlScript(""), ledger);
    assert RetagsOf(NerdctlScript(""), ledger) == RetagsOf(PullScript, ledger);
  }

  /**
   * Reading the nerdctl script back yields, for each record in order, "pull
   * the custom registry's copy of the source (the reference the registry
   * script pushes), or the target when no registry is set, and tag it as the
   * source".
   */
  lemma NerdctlScriptRetags(ledger: seq<Record>, customRegistry: string)
    requires forall rec :: rec in ledger ==> OneLine(NerdctlScript(customRegistry), rec)
    ensures var r := ParseRetags(Nerdctl, RenderAll(ledger, customRegistry).nerdctlScript);
      && r.Some?
      && |r.value| == |ledger|
      && forall i :: 0 <= i < |ledger| ==>
           r.value[i] == Retag(if customRegistry != "" then customRegistry + "/" + ledger[i].source else ledger[i].target,
                               ledger[i].source)
  {
    ScriptParses(NerdctlScript(customRegistry), ledger);
  }

  // ---------------------------------------------------------------------
  // The template executions as main.go performs them.

  /** The value a template is executed with: the bare ledger, or the struct that also carries the registry. */
  datatype TemplateData = Ledger(records: seq<Record>) | CustomData(output: seq<Record>, customRegistry: string)

  datatype ExecError = CannotEvaluateField(field: string)

  /**
   * Evaluating `.Output`, the pipeline the registry and nerdctl templates
   * range over: only the struct has the field; on the bare slice evaluation
   * fails.
   */
  function OutputField(data: TemplateData): Result<seq<Record>, ExecError>
  {
    match data
    case CustomData(output, _) => Success(output)
    case Ledger(_) => Failure(CannotEvaluateField("Output"))
  }

  /** Executing a `{{- range .Output -}}` template of the given script with `data` as dot. */
  function ExecuteOverOutput(script: Script, data: TemplateData): Result<string, ExecError>
  {
    match OutputField(data)
    case Failure(e) => Failure(e)
    case Success(records) => Success(Render(script, records))
  }

  /**
   * The renderings as written: with a custom registry both extra templates get
   * the struct that holds `Output`; without one, the nerdctl template still
   * ranges over `.Output` but is executed with the bare ledger, and execution
   * fails after the pull script has been written.
   */
  function RenderAllAsWritten(ledger: seq<Record>, customRegistry: string): (r: Result<Artifacts, ExecError>)
    ensures customRegistry != "" ==> r == Success(RenderAll(ledger, customRegistry))
    ensures customRegistry == "" ==> r == Failure(CannotEvaluateField("Output"))
  {
    var pullScript := Render(PullScript, ledger);
    if customRegistry != "" then
      var data := CustomData(ledger, customRegistry);
      match ExecuteOverOutput(RegistryScript(customRegistry), data)
      case Failure(e) => Failure(e)
      case Success(registryScript) =>
        match ExecuteOverOutput(NerdctlScript(customRegistry), data)
        case Failure(e) => Failure(e)
        case Success(nerdctlScript) => Success(Artifacts(pullScript, Some(registryScript), nerdctlScript))
    else
      match ExecuteOverOutput(NerdctlScript(""), Ledger(ledger))
      case Failure(e) => Failure(e)
      case Success(nerdctlScript) => Success(Artifacts(pullScript, None, nerdctlScript))
  }

  /**
   * Without a custom registry the code as written never produces the nerdctl
   * script, although the intended rendering produces one that performs the
   * pull script's retags.
   */
  lemma NerdctlScriptLostWithoutRegistry(ledger: seq<Record>)
    requires ledger != []
    requires forall rec :: rec in ledger ==> OneLine(PullScript, rec)
    ensures RenderAllAsWritten(ledger, "").Failure?
    ensures RenderAll(ledger, "").nerdctlScript != ""
    ensures ParseRetags(Nerdctl, RenderAll(ledger, "").nerdctlScript).Some?
  {
    NerdctlMirrorsPullScript(ledger);
  }
}
