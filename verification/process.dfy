/** Child processes as the command-line tool sees them. Spawning is not
    modelled; an oracle value says how the child ended. */
module Process {
  import opened Wrappers
  import opened Text

  /** How a spawned child ended: a `close` event with its exit code (absent
      when a signal killed it), or an `error` event because it could not be
      spawned. */
  datatype ChildEvent = Close(code: Option<int>) | SpawnError

  datatype Failure = ExitCode(code: Option<int>) | SpawnFailed

  /** The promise wrapped around a child: `code === 0` resolves, any other
      close rejects with the code, and an `error` event rejects. */
  function Settle(e: ChildEvent): (r: Result<(), Failure>)
    ensures r.Ok? <==> e == Close(Some(0))
    ensures e.SpawnError? ==> r == Err(SpawnFailed)
    ensures e.Close? && e.code != Some(0) ==> r == Err(ExitCode(e.code))
  {
    match e
    case Close(code) => if code == Some(0) then Ok(()) else Err(ExitCode(code))
    case SpawnError => Err(SpawnFailed)
  }

  // ---------------------------------------------------------------------
  // Argument vectors

  /** The argument vector a spawned child starts with. Spawned directly it
      is the file followed by the arguments. With `shell: true` Node joins
      the file and the arguments with single spaces, unquoted, and hands
      that line to `/bin/sh -c`, which splits it into words again. */
  function Argv(file: string, args: seq<string>, shell: bool): seq<string>
  {
    if shell then ShellWords(JoinWith([file] + args, ' ')) else [file] + args
  }

  /** The words of the first command on a `/bin/sh` line whose special
      characters are spaces, line ends and balanced double quotes: an
      unquoted space ends a word, an unquoted line end ends the command,
      and a double quote opens or closes a quoted stretch and is dropped. */
  function ShellWords(line: string): seq<string>
  {
    Words(line, "", false, false)
  }

  /** `word` is the word read so far; `started` says whether a word is
      open (a quoted empty word counts); `quoted` whether a double-quoted
      stretch is open. */
  function Words(line: string, word: string, started: bool, quoted: bool): seq<string>
    decreases |line|
  {
    if |line| == 0 then Flush(word, started)
    else
      var c := line[0];
      if c == '"' then Words(line[1..], word, true, !quoted)
      else if quoted || (c != ' ' && c != '\n') then Words(line[1..], word + [c], true, quoted)
      else if c == ' ' then Flush(word, started) + Words(line[1..], "", false, false)
      else Flush(word, started)
  }

  function Flush(word: string, started: bool): seq<string>
  {
    if started then [word] else []
  }

  /** No character the shell treats specially outside quotes. */
  predicate Bare(w: string) {
    forall i :: 0 <= i < |w| ==> w[i] != ' ' && w[i] != '\n' && w[i] != '"'
  }

  /** No double quote. */
  predicate Unquoted(w: string) {
    '"' !in w
  }

  lemma {:induction false} WordsBare(w: string, rest: string, word: string, started: bool)
    requires Bare(w)
    ensures Words(w + rest, word, started, false) == Words(rest, word + w, started || |w| > 0, false)
    decreases |w|
  {
    if |w| == 0 {
      assert w + rest == rest && word + w == word;
    } else {
      assert (w + rest)[1..] == w[1..] + rest;
      WordsBare(w[1..], rest, word + [w[0]], true);
      assert word + [w[0]] + w[1..] == word + w;
    }
  }

  lemma {:induction false} WordsQuoted(w: string, rest: string, word: string)
    requires Unquoted(w)
    ensures Words(w + rest, word, true, true) == Words(rest, word + w, true, true)
    decreases |w|
  {
    if |w| == 0 {
      assert w + rest == rest && word + w == word;
    } else {
      assert (w + rest)[1..] == w[1..] + rest;
      WordsQuoted(w[1..], rest, word + [w[0]]);
      assert word + [w[0]] + w[1..] == word + w;
    }
  }

  /** A bare word followed by a space is one word of the line. */
  lemma BareWordThenSpace(w: string, rest: string)
    requires |w| > 0 && Bare(w)
    ensures Words(w + " " + rest, "", false, false) == [w] + Words(rest, "", false, false)
  {
    WordsBare(w, " " + rest, "", false);
    assert w + " " + rest == w + (" " + rest);
    assert "" + w == w;
  }

  /** A double-quoted stretch without inner quotes is one word, its
      spaces and line ends included. */
  lemma QuotedWord(q: string)
    requires Unquoted(q)
    ensures Words("\"" + q + "\"", "", false, false) == [q]
  {
    var line := "\"" + q + "\"";
    assert line[0] == '"' && line[1..] == q + "\"";
    assert Words(line, "", false, false) == Words(q + "\"", "", true, true);
    WordsQuoted(q, "\"", "");
    assert "" + q == q;
    assert Words("\"", q, true, true) == Words("", q, true, false);
  }
}
