/**
  ssh_config import (crates/core-store/src/ssh_config/parse.rs): directives become host stanzas, `Include`
  lines pull in further files, and an alias is resolved over the stanzas, the first value winning.

  The pure functions say what one file, one include graph and one resolution mean; the methods below
  them work as the source does, on a shared configuration and a shared visit set.
 */
module SshConfig {
  import opened Options
  import opened Text
  import opened Lexer
  import Glob

  datatype Settings = Settings(
    hostname: Option<string>,
    port: Option<nat>,
    user: Option<string>,
    identityFile: Option<string>,
    proxyJump: Option<string>,
    serverAliveInterval: Option<nat>,
    connectTimeout: Option<nat>,
    forwardAgent: Option<bool>)

  const UNSET := Settings(None, None, None, None, None, None, None, None)

  /** A finished stanza. */
  datatype Block = Block(patterns: seq<string>, settings: Settings)

  datatype Warning =
    | MatchUnsupported(file: string, line: nat)
    | IncludeCycle(file: string, line: nat)
    | IncludeUnreadable(file: string, line: nat, pattern: string)
    | UnsupportedKeyword(file: string, line: nat, keyword: string)

  /** The file system and the home directory, as far as the importer asks about them. */
  datatype World = World(
    expandTilde: string -> string,
    canonical: string -> string,
    parent: string -> Option<string>,
    text: string -> Option<string>,
    targets: (string, string) -> seq<string>)

  const UNDERSTOOD: seq<string> :=
    ["hostname", "port", "user", "identityfile", "proxyjump", "serveraliveinterval", "connecttimeout", "forwardagent"]

  const MAX_INCLUDE_DEPTH: nat := 16

  // ---------------------------------------------------------------- matching

  /** Some pattern matches the alias and no negated pattern does. */
  predicate Matches(patterns: seq<string>, alias: string) {
    && (exists p | p in patterns :: !Glob.Negated(p) && Glob.Accepts(p, alias))
    && (forall p | p in patterns :: Glob.Negated(p) ==> !Glob.Accepts(p[1..], alias))
  }

  method StanzaMatches(patterns: seq<string>, alias: string) returns (matched: bool)
    ensures matched == Matches(patterns, alias)
  {
    matched := false;
    for i := 0 to |patterns|
      invariant forall j | 0 <= j < i :: Glob.Negated(patterns[j]) ==> !Glob.Accepts(patterns[j][1..], alias)
      invariant matched <==> exists j | 0 <= j < i :: !Glob.Negated(patterns[j]) && Glob.Accepts(patterns[j], alias)
    {
      var pattern := patterns[i];
      if pattern != "" && pattern[0] == '!' {
        var hit, _ := Glob.GlobMatch(pattern[1..], alias);
        if hit {
          assert pattern in patterns;
          return false;
        }
      } else {
        var hit, _ := Glob.GlobMatch(pattern, alias);
        if hit {
          matched := true;
        }
      }
    }
  }

  // ---------------------------------------------------------------- values

  /** Unsigned integer parsing: an optional plus sign, at least one digit, no overflow. */
  function ParseUnsigned(s: string, max: nat): Option<nat> {
    var body := if s != "" && s[0] == '+' then s[1..] else s;
    if body == "" || !AllDigits(body) then None
    else if DecimalValue(body) <= max then Some(DecimalValue(body)) else None
  }

  const U16_MAX: nat := 0xFFFF
  const U32_MAX: nat := 0xFFFF_FFFF

  function ParseFlag(s: string): bool {
    Lower(s) in ["yes", "true", "on"]
  }

  /** One directive laid over settings that may have the value already: the first one stays. */
  function Applied(w: World, s: Settings, keyword: string, args: seq<string>): Settings {
    if args == [] then s
    else
      var first := args[0];
      if keyword == "hostname" && s.hostname.None? then s.(hostname := Some(first))
      else if keyword == "port" && s.port.None? then s.(port := ParseUnsigned(first, U16_MAX))
      else if keyword == "user" && s.user.None? then s.(user := Some(first))
      else if keyword == "identityfile" && s.identityFile.None? then s.(identityFile := Some(w.expandTilde(first)))
      else if keyword == "proxyjump" && s.proxyJump.None? then s.(proxyJump := Some(Join(args, ",")))
      else if keyword == "serveraliveinterval" && s.serverAliveInterval.None? then
        s.(serverAliveInterval := ParseUnsigned(first, U32_MAX))
      else if keyword == "connecttimeout" && s.connectTimeout.None? then
        s.(connectTimeout := ParseUnsigned(first, U32_MAX))
      else if keyword == "forwardagent" && s.forwardAgent.None? then s.(forwardAgent := Some(ParseFlag(first)))
      else s
  }

  function Inherited(s: Settings, other: Settings): Settings {
    Settings(s.hostname.OrElse(other.hostname), s.port.OrElse(other.port), s.user.OrElse(other.user),
             s.identityFile.OrElse(other.identityFile), s.proxyJump.OrElse(other.proxyJump),
             s.serverAliveInterval.OrElse(other.serverAliveInterval),
             s.connectTimeout.OrElse(other.connectTimeout), s.forwardAgent.OrElse(other.forwardAgent))
  }

  /** Settings for `alias` over the first `n` blocks. */
  function ResolveUpTo(blocks: seq<Block>, n: nat, alias: string): Settings
    requires n <= |blocks|
  {
    if n == 0 then UNSET
    else
      var before := ResolveUpTo(blocks, n - 1, alias);
      if Matches(blocks[n - 1].patterns, alias) then Inherited(before, blocks[n - 1].settings) else before
  }

  function Resolve(blocks: seq<Block>, alias: string): Settings {
    ResolveUpTo(blocks, |blocks|, alias)
  }

  // ---------------------------------------------------------------- reading, as functions

  /** What the import has gathered, across files. `filesRead` lists the files read, with their depth. */
  datatype Progress = Progress(
    blocks: seq<Block>, warnings: seq<Warning>, visited: set<string>, filesRead: seq<(string, nat)>)

  /** Inside one file: the open stanza, and whether a `Match` discards what follows. */
  datatype Reading = Reading(p: Progress, current: Option<Block>, inMatch: bool)

  /** A stanza without patterns is dropped. */
  function Flush(blocks: seq<Block>, current: Option<Block>): seq<Block> {
    if current.None? || current.value.patterns == [] then blocks else blocks + [current.value]
  }

  function Warned(p: Progress, w: Warning): Progress {
    p.(warnings := p.warnings + [w])
  }

  /** One directive that is not an `Include`. */
  function Read(w: World, file: string, r: Reading, d: Directive): Reading {
    if d.keyword == "host" then
      Reading(r.p.(blocks := Flush(r.p.blocks, r.current)), Some(Block(d.args, UNSET)), false)
    else if d.keyword == "match" then
      Reading(Warned(r.p.(blocks := Flush(r.p.blocks, r.current)), MatchUnsupported(file, d.line)), None, true)
    else if r.inMatch || r.current.None? then r
    else if d.keyword !in UNDERSTOOD then r.(p := Warned(r.p, UnsupportedKeyword(file, d.line, d.keyword)))
    else
      var b := r.current.value;
      r.(current := Some(b.(settings := Applied(w, b.settings, d.keyword, d.args))))
  }

  /** A readable file about to be read. */
  function Entered(w: World, path: string, depth: nat, p: Progress): Progress {
    p.(visited := p.visited + {w.canonical(path)}, filesRead := p.filesRead + [(path, depth)])
  }

  function Rank(depth: nat): nat {
    if depth <= MAX_INCLUDE_DEPTH then MAX_INCLUDE_DEPTH + 1 - depth else 0
  }

  /** A file: refused beyond the depth cap or when its canonical path was seen, silent when unreadable. */
  function ParseInto(w: World, path: string, depth: nat, p: Progress): Progress
    decreases Rank(depth), 4, 0
  {
    if depth > MAX_INCLUDE_DEPTH || w.canonical(path) in p.visited then Warned(p, IncludeCycle(path, 0))
    else
      match w.text(path)
      case None => p.(visited := p.visited + {w.canonical(path)})
      case Some(text) =>
        var ds := Tokenize(text);
        var r := AbsorbUpTo(w, ds, |ds|, path, depth, Reading(Entered(w, path, depth, p), None, false));
        r.p.(blocks := Flush(r.p.blocks, r.current))
  }

  /** The first `n` directives of a file. */
  function AbsorbUpTo(w: World, ds: seq<Directive>, n: nat, file: string, depth: nat, r: Reading): Reading
    requires n <= |ds| && depth <= MAX_INCLUDE_DEPTH
    decreases Rank(depth), 3, n
  {
    if n == 0 then r
    else
      var before := AbsorbUpTo(w, ds, n - 1, file, depth, r);
      var d := ds[n - 1];
      if d.keyword != "include" then Read(w, file, before, d)
      else before.(p := Include(w, d, file, depth, before.p))
  }

  function Include(w: World, d: Directive, file: string, depth: nat, p: Progress): Progress
    requires depth <= MAX_INCLUDE_DEPTH
    decreases Rank(depth), 2, 0
  {
    match w.parent(file)
    case None => Warned(p, IncludeUnreadable(file, d.line, Join(d.args, " ")))
    case Some(base) => IncludeUpTo(w, d, |d.args|, base, file, depth, p)
  }

  function IncludeUpTo(w: World, d: Directive, n: nat, base: string, file: string, depth: nat, p: Progress): Progress
    requires n <= |d.args| && depth <= MAX_INCLUDE_DEPTH
    decreases Rank(depth), 1, n
  {
    if n == 0 then p
    else
      var before := IncludeUpTo(w, d, n - 1, base, file, depth, p);
      var targets := w.targets(base, w.expandTilde(d.args[n - 1]));
      if targets == [] then Warned(before, IncludeUnreadable(file, d.line, d.args[n - 1]))
      else FilesUpTo(w, targets, |targets|, depth, before)
  }

  function FilesUpTo(w: World, targets: seq<string>, n: nat, depth: nat, p: Progress): Progress
    requires n <= |targets| && depth <= MAX_INCLUDE_DEPTH
    decreases Rank(depth), 0, n
  {
    if n == 0 then p
    else ParseInto(w, targets[n - 1], depth + 1, FilesUpTo(w, targets, n - 1, depth, p))
  }

  const NOTHING := Progress([], [], {}, [])

  // ---------------------------------------------------------------- the importer

  /** A stanza while it is being filled. */
  class Stanza {
    const patterns: seq<string>
    var settings: Settings

    constructor (patterns: seq<string>)
      ensures this.patterns == patterns && settings == UNSET
    {
      this.patterns := patterns;
      settings := UNSET;
    }

    function Value(): Block
      reads this
    {
      Block(patterns, settings)
    }

    /** Only a field that is still open takes the value, and only if the value can be read. */
    method Apply(w: World, keyword: string, args: seq<string>)
      modifies this
      ensures settings == Applied(w, old(settings), keyword, args)
    {
      if args == [] {
        return;
      }
      var first := args[0];
      match keyword {
        case "hostname" => if settings.hostname.None? { settings := settings.(hostname := Some(first)); }
        case "port" => if settings.port.None? { settings := settings.(port := ParseUnsigned(first, U16_MAX)); }
        case "user" => if settings.user.None? { settings := settings.(user := Some(first)); }
        case "identityfile" =>
          if settings.identityFile.None? { settings := settings.(identityFile := Some(w.expandTilde(first))); }
        case "proxyjump" =>
          if settings.proxyJump.None? { settings := settings.(proxyJump := Some(Join(args, ","))); }
        case "serveraliveinterval" =>
          if settings.serverAliveInterval.None? {
            settings := settings.(serverAliveInterval := ParseUnsigned(first, U32_MAX));
          }
        case "connecttimeout" =>
          if settings.connectTimeout.None? {
            settings := settings.(connectTimeout := ParseUnsigned(first, U32_MAX));
          }
        case "forwardagent" =>
          if settings.forwardAgent.None? { settings := settings.(forwardAgent := Some(ParseFlag(first))); }
        case _ =>
      }
    }

    /** Fill every unset field from `other`. */
    method InheritFrom(other: Settings)
      modifies this
      ensures settings == Inherited(old(settings), other)
    {
      if settings.hostname.None? { settings := settings.(hostname := other.hostname); }
      if settings.port.None? { settings := settings.(port := other.port); }
      if settings.user.None? { settings := settings.(user := other.user); }
      if settings.identityFile.None? { settings := settings.(identityFile := other.identityFile); }
      if settings.proxyJump.None? { settings := settings.(proxyJump := other.proxyJump); }
      if settings.serverAliveInterval.None? {
        settings := settings.(serverAliveInterval := other.serverAliveInterval);
      }
      if settings.connectTimeout.None? { settings := settings.(connectTimeout := other.connectTimeout); }
      if settings.forwardAgent.None? { settings := settings.(forwardAgent := other.forwardAgent); }
    }
  }

  class VisitSet {
    var paths: set<string>

    constructor ()
      ensures paths == {}
    {
      paths := {};
    }
  }

  class ParsedConfig {
    var stanzas: seq<Block>
    var warnings: seq<Warning>
    ghost var filesRead: seq<(string, nat)>

    constructor ()
      ensures stanzas == [] && warnings == [] && filesRead == []
    {
      stanzas, warnings, filesRead := [], [], [];
    }

    /** The configuration and the visit set as one value. */
    ghost function View(visited: VisitSet): Progress
      reads this, visited
    {
      Progress(stanzas, warnings, visited.paths, filesRead)
    }

    method Warn(w: Warning)
      modifies this`warnings
      ensures warnings == old(warnings) + [w]
    {
      warnings := warnings + [w];
    }

    method FlushStanza(current: Stanza?)
      modifies this`stanzas
      ensures stanzas == Flush(old(stanzas), if current == null then None else Some(current.Value()))
    {
      if current != null && current.patterns != [] {
        stanzas := stanzas + [current.Value()];
      }
    }

    /** The settings of one alias: the stanzas that match it, asked in order until one has the value. */
    method ResolveAlias(alias: string) returns (s: Settings)
      ensures s == Resolve(stanzas, alias)
    {
      var resolved := new Stanza([alias]);
      for i := 0 to |stanzas|
        invariant fresh(resolved)
        invariant resolved.settings == ResolveUpTo(stanzas, i, alias)
      {
        var matched := StanzaMatches(stanzas[i].patterns, alias);
        if matched {
          resolved.InheritFrom(stanzas[i].settings);
        }
      }
      s := resolved.settings;
    }

    method ParseFileInto(w: World, path: string, depth: nat, visited: VisitSet)
      modifies this, visited
      ensures View(visited) == ParseInto(w, path, depth, old(View(visited)))
      decreases Rank(depth), 4, 0
    {
      var canonical := w.canonical(path);
      if depth > MAX_INCLUDE_DEPTH || canonical in visited.paths {
        Warn(IncludeCycle(path, 0));
        return;
      }
      visited.paths := visited.paths + {canonical};
      var text := w.text(path);
      if text.None? {
        return;
      }
      filesRead := filesRead + [(path, depth)];
      Absorb(w, Tokenize(text.value), path, depth, visited);
    }

    method Absorb(w: World, ds: seq<Directive>, file: string, depth: nat, visited: VisitSet)
      requires depth <= MAX_INCLUDE_DEPTH
      modifies this, visited
      ensures
        var r := AbsorbUpTo(w, ds, |ds|, file, depth, Reading(old(View(visited)), None, false));
        View(visited) == r.p.(blocks := Flush(r.p.blocks, r.current))
      decreases Rank(depth), 3, 0
    {
      ghost var start := Reading(View(visited), None, false);
      var current: Stanza? := null;
      var inMatch := false;
      for i := 0 to |ds|
        invariant current != null ==> fresh(current)
        invariant Reading(View(visited), if current == null then None else Some(current.Value()), inMatch)
               == AbsorbUpTo(w, ds, i, file, depth, start)
      {
        var d := ds[i];
        if d.keyword == "host" {
          FlushStanza(current);
          inMatch := false;
          current := new Stanza(d.args);
        } else if d.keyword == "match" {
          FlushStanza(current);
          current := null;
          inMatch := true;
          Warn(MatchUnsupported(file, d.line));
        } else if d.keyword == "include" {
          FollowInclude(w, d, file, depth, visited);
        } else if inMatch {
        } else if current == null {
          // Directives before any Host: neither kept nor reported.
        } else if d.keyword !in UNDERSTOOD {
          Warn(UnsupportedKeyword(file, d.line, d.keyword));
        } else {
          current.Apply(w, d.keyword, d.args);
        }
      }
      FlushStanza(current);
    }

    method FollowInclude(w: World, d: Directive, file: string, depth: nat, visited: VisitSet)
      requires depth <= MAX_INCLUDE_DEPTH
      modifies this, visited
      ensures View(visited) == Include(w, d, file, depth, old(View(visited)))
      decreases Rank(depth), 2, 0
    {
      var parent := w.parent(file);
      if parent.None? {
        Warn(IncludeUnreadable(file, d.line, Join(d.args, " ")));
        return;
      }
      ghost var start := View(visited);
      for i := 0 to |d.args|
        invariant View(visited) == IncludeUpTo(w, d, i, parent.value, file, depth, start)
      {
        IncludePattern(w, w.targets(parent.value, w.expandTilde(d.args[i])), d.args[i], d.line, file, depth, visited);
      }
    }

    method IncludePattern(
        w: World, targets: seq<string>, pattern: string, line: nat, file: string, depth: nat, visited: VisitSet)
      requires depth <= MAX_INCLUDE_DEPTH
      modifies this, visited
      ensures View(visited) == if targets == [] then Warned(old(View(visited)), IncludeUnreadable(file, line, pattern))
                               else FilesUpTo(w, targets, |targets|, depth, old(View(visited)))
      decreases Rank(depth), 0, 0
    {
      ghost var start := View(visited);
      var matched := false;
      for i := 0 to |targets|
        invariant matched == (i > 0)
        invariant View(visited) == FilesUpTo(w, targets, i, depth, start)
      {
        matched := true;
        ParseFileInto(w, targets[i], depth + 1, visited);
      }
      if !matched {
        Warn(IncludeUnreadable(file, line, pattern));
      }
    }
  }

  /** The configuration a file and everything it includes amount to. */
  method ParseFile(w: World, path: string) returns (cfg: ParsedConfig)
    ensures fresh(cfg)
    ensures
      var p := ParseInto(w, path, 0, NOTHING);
      cfg.stanzas == p.blocks && cfg.warnings == p.warnings && cfg.filesRead == p.filesRead
  {
    cfg := new ParsedConfig();
    var visited := new VisitSet();
    cfg.ParseFileInto(w, path, 0, visited);
  }
}
