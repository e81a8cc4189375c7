/**
 * The entry point's decisions: the hidden worker mode, the subcommands, the
 * `magnet:` check, and where the API key comes from.
 *
 * The environment variable, the key file, the prompt's answer and what the
 * argument parser made of the command line are inputs.
 */
module Cli {
  import opened Wrappers
  import opened Text

  /**
   * `load_api_key`: `env` is `RD_API_TOKEN` (None when unset or not
   * Unicode), `file` the key file's content (None when it is missing or
   * unreadable). A non-empty variable wins as it is; otherwise the trimmed
   * file content, when that is not empty.
   */
  function LoadApiKey(env: Option<string>, file: Option<string>): (key: Option<string>)
    ensures key.Some? ==> key.value != []
  {
    if env.Some? && env.value != [] then env
    else if file.Some? && Trim(file.value) != [] then Some(Trim(file.value))
    else None
  }

  /**
   * The variable takes priority over the file and is used untrimmed; without
   * it, a key is found exactly when the file holds more than whitespace.
   */
  lemma ApiKeyPriority(env: Option<string>, file: Option<string>)
    ensures env.Some? && env.value != [] ==> LoadApiKey(env, file) == env
    ensures env.None? || env.value == [] ==>
      (LoadApiKey(env, file).Some? <==> file.Some? && !AllWhitespace(file.value))
  {
    if file.Some? {
      TrimShape(file.value);
    }
  }

  /**
   * `set-key` writes the key as typed; a key without surrounding whitespace is
   * read back from the file as it was, whatever whitespace (a final line
   * break, say) ends up around it.
   */
  lemma SavedKeyLoadsBack(key: string, left: string, right: string)
    requires key != [] && !IsWhitespace(key[0]) && !IsWhitespace(key[|key| - 1])
    requires AllWhitespace(left) && AllWhitespace(right)
    ensures LoadApiKey(None, Some(left + key + right)) == Some(key)
    ensures LoadApiKey(Some([]), Some(key)) == Some(key)
  {
    TrimPadded(left, key, right);
    TrimPadded([], key, []);
    assert [] + key + [] == key;
  }

  /** The key `main` uses: the loaded one, else the prompt's answer when it is not empty. */
  function ApiKey(env: Option<string>, file: Option<string>, prompted: Option<string>): (key: Option<string>)
    ensures key.Some? ==> key.value != []
    ensures LoadApiKey(env, file).Some? ==> key == LoadApiKey(env, file)
  {
    var loaded := LoadApiKey(env, file);
    if loaded.Some? then loaded
    else if prompted.Some? && prompted.value != [] then prompted
    else None
  }

  predicate IsMagnetLink(s: string) {
    StartsWith(s, "magnet:")
  }

  /** What the argument parser made of the command line. */
  datatype Parsed = DlCommand | SetKeyCommand | MagnetArgument(magnet: Option<string>)

  /** What a run of the program goes on to do. */
  datatype Start =
    | RunWorker(id: string)
    | ShowDashboard
    | SetApiKey
    | ShowUsage
    | NotAMagnet
    | NoApiKey
    | ProcessLink(magnet: string, apiKey: string)

  /**
   * `main`: a worker is started by `--bg-download <id>` in first and second
   * position before any other parsing; then the subcommands; then the magnet
   * argument, which must start with `magnet:` before a key is looked for.
   */
  function Main(args: seq<string>, parsed: Parsed, env: Option<string>, file: Option<string>,
                prompted: Option<string>): (start: Start)
    ensures |args| >= 3 && args[1] == "--bg-download" ==> start == RunWorker(args[2])
    ensures start.ProcessLink? ==> IsMagnetLink(start.magnet) && start.apiKey != []
    ensures !(|args| >= 3 && args[1] == "--bg-download") && parsed.MagnetArgument? && parsed.magnet.Some? ==>
      (start.ProcessLink? <==> IsMagnetLink(parsed.magnet.value) && ApiKey(env, file, prompted).Some?)
  {
    if |args| >= 3 && args[1] == "--bg-download" then RunWorker(args[2])
    else
      match parsed
      case DlCommand => ShowDashboard
      case SetKeyCommand => SetApiKey
      case MagnetArgument(None) => ShowUsage
      case MagnetArgument(Some(magnet)) =>
        if !IsMagnetLink(magnet) then NotAMagnet
        else
          var key := ApiKey(env, file, prompted);
          if key.None? then NoApiKey else ProcessLink(magnet, key.value)
  }

  /** The prompt's answer matters only when no key is stored. */
  lemma PromptOnlyWithoutStoredKey(args: seq<string>, parsed: Parsed, env: Option<string>, file: Option<string>,
                                   prompted: Option<string>)
    requires LoadApiKey(env, file).Some?
    ensures Main(args, parsed, env, file, prompted) == Main(args, parsed, env, file, None)
  {
  }

  /** A worker is found by the id after the flag, whatever follows it. */
  lemma WorkerInvocation(program: string, id: string, rest: seq<string>, parsed: Parsed)
    ensures Main([program, "--bg-download", id] + rest, parsed, None, None, None) == RunWorker(id)
  {
    var args := [program, "--bg-download", id] + rest;
    assert args[1] == "--bg-download" && args[2] == id;
  }
}
