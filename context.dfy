/**
 * The context manager of app.py: the recent conversation flattened into one
 * block of text that conditions the router and the code-writing prompts.
 */
module Context {
  import opened Text

  /** One turn of the chat history: `{"role": ..., "content": ...}`. */
  datatype Message = Message(role: string, content: string)

  /** How many of the latest turns the context keeps (`messages[-4:]`). */
  const Window: nat := 4

  predicate SingleLine(m: Message) {
    '\n' !in m.role && '\n' !in m.content
  }

  /**
   * One line of the context: `f"{role.upper()}: {content}"`. It is the
   * upper-cased role, the separator, then the content, and a single-line turn
   * renders without a newline.
   */
  function Render(m: Message): (r: string)
    ensures |r| == |m.role| + 2 + |m.content| && r[..|m.role|] == Upper(m.role)
    ensures r[|m.role|..|m.role| + 2] == ": " && r[|m.role| + 2..] == m.content
    ensures SingleLine(m) ==> '\n' !in r
  {
    var role := Upper(m.role);
    assert forall j :: 0 <= j < |role| ==> role[j] != '\n' || '\n' in m.role;
    role + ": " + m.content
  }

  function Lines(ms: seq<Message>): (lines: seq<string>)
    ensures |lines| == |ms|
    ensures forall i {:trigger lines[i]} :: 0 <= i < |ms| ==> lines[i] == Render(ms[i])
  {
    seq(|ms|, i requires 0 <= i < |ms| => Render(ms[i]))
  }

  /** Python's `messages[-4:]`: the whole list when it is shorter than four. */
  function Recent(ms: seq<Message>): (r: seq<Message>)
    ensures |r| == if |ms| < Window then |ms| else Window
    ensures r == ms[|ms| - |r|..]
  {
    if |ms| < Window then ms else ms[|ms| - Window..]
  }

  /** `get_context(messages)`. */
  function GetContext(ms: seq<Message>): (r: string)
    ensures ms == [] ==> r == ""
  {
    if ms == [] then "" else Join("\n", Lines(Recent(ms)))
  }

  /** A history of one turn gives that turn's line. */
  lemma ContextOfOne(m: Message)
    ensures GetContext([m]) == Render(m)
  {
    var kept := Recent([m]);
    assert kept == [m];
    var lines := Lines(kept);
    assert |lines| == 1 && lines[0] == Render(m);
  }

  /**
   * Within the window, the context of a history is the context of its older
   * part, a newline, then the context of its newer part, whatever the turns
   * contain. With `ContextOfOne` and `ContextIgnoresOlder` this fixes the
   * context of every history.
   */
  lemma ContextAppend(a: seq<Message>, b: seq<Message>)
    requires a != [] && b != [] && |a + b| <= Window
    ensures GetContext(a + b) == GetContext(a) + "\n" + GetContext(b)
  {
    ContextWithinWindow(a);
    ContextWithinWindow(b);
    ContextWithinWindow(a + b);
    LinesAppend(a, b);
    JoinAppend("\n", Lines(a), Lines(b));
  }

  /** A non-empty history that fits the window is joined whole. */
  lemma ContextWithinWindow(ms: seq<Message>)
    requires ms != [] && |ms| <= Window
    ensures GetContext(ms) == Join("\n", Lines(ms))
  {
    assert Recent(ms) == ms[0..];
    assert ms[0..] == ms;
  }

  /** Rendering distributes over concatenation. */
  lemma LinesAppend(a: seq<Message>, b: seq<Message>)
    ensures Lines(a + b) == Lines(a) + Lines(b)
  {
    var ab := a + b;
    var la, lb, lab := Lines(a), Lines(b), Lines(ab);
    var joined := la + lb;
    assert |lab| == |joined|;
    forall i | 0 <= i < |a|
      ensures lab[i] == joined[i]
    {
      assert ab[i] == a[i];
      assert lab[i] == Render(a[i]) == la[i];
    }
    forall i | |a| <= i < |lab|
      ensures lab[i] == joined[i]
    {
      var j := i - |a|;
      assert ab[i] == b[j];
      assert lab[i] == Render(b[j]) == lb[j];
    }
    assert lab == joined;
  }

  /** Messages older than the last four never reach the context. */
  lemma ContextIgnoresOlder(older: seq<Message>, recent: seq<Message>)
    requires |recent| >= Window
    ensures GetContext(older + recent) == GetContext(recent)
  {
    var all := older + recent;
    assert Recent(all) == Recent(recent) by {
      assert all[|all| - Window..] == recent[|recent| - Window..];
    }
  }

  /**
   * When no kept turn spans several lines, the context is exactly one line per
   * kept turn, oldest first, `ROLE: content`, with no newline after the last.
   */
  lemma ContextLines(ms: seq<Message>)
    requires ms != []
    requires forall i :: 0 <= i < |Recent(ms)| ==> SingleLine(Recent(ms)[i])
    ensures Split(GetContext(ms), '\n') == Lines(Recent(ms))
    ensures |Split(GetContext(ms), '\n')| == if |ms| < Window then |ms| else Window
  {
    var kept := Recent(ms);
    var lines := Lines(kept);
    forall i | 0 <= i < |lines| ensures '\n' !in lines[i] {
      assert lines[i] == Render(kept[i]);
    }
    SplitJoin(lines, '\n');
  }
}
