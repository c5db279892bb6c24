/*
 * systems/dev_commands.py: the developer console.  A command line is
 * stripped, split on whitespace and looked up by its first word in lower
 * case; the rest of the words are the command's arguments.  The manager
 * keeps its commands in a dictionary by name, so registering a name again
 * replaces the earlier command.
 *
 * A handler is named by a tag.  The handlers for gold, goto, teleport,
 * heal and help run here; the outcome of any other handler (which the game
 * runs) is passed to Execute, where an exception it raised becomes the
 * console's single error line.  goto reports the floor the game then
 * changes to.
 */
module DevCommands {
  import opened Common
  import Player
  import Zone

  datatype Handler =
    | Goto | Give | Gold | Heal | Level | Xp | Teleport | Event | Killall | Amulet | Clear | NpcState | Help
    | Other(id: string)

  datatype DevCommand = DevCommand(name: string, description: string, usage: string, handler: Handler)

  /** What a handler the game runs did: returned its messages, or raised an exception with this text. */
  datatype HandlerOutcome = Returned(messages: seq<string>) | Raised(error: string)

  const DISABLED_MESSAGE := "Comandos de desarrollo deshabilitados."

  /** The reply to a name no command has. */
  function UnknownMessage(name: string): string
  {
    "Comando desconocido: " + name + ". Escribe 'help' para ver comandos disponibles."
  }

  /** The console's view of a handler's outcome: its messages, or one line for an exception. */
  function Finish(o: HandlerOutcome): (r: seq<string>)
    ensures o.Returned? ==> r == o.messages
    ensures o.Raised? ==> |r| == 1 && StartsWith(r[0], "Error ejecutando comando: ")
  {
    match o
    case Returned(ms) => ms
    case Raised(e) =>
      var line := "Error ejecutando comando: " + e;
      assert line[..|"Error ejecutando comando: "|] == "Error ejecutando comando: ";
      [line]
  }

  // ---------------------------------------------------------------------
  // Parsing a command line
  // ---------------------------------------------------------------------

  datatype Parsed = Blank | Named(name: string, args: seq<string>)

  /**
   * The parsing steps of execute: a line that strips to nothing (or splits
   * into no words) is blank; otherwise the first word, lower-cased, names
   * the command and the other words are its arguments.
   */
  function ParseLine(line: string): (p: Parsed)
  {
    if Strip(line) == [] then Blank
    else
      var parts := Words(Strip(line));
      if parts == [] then Blank else Named(Lower(parts[0]), parts[1..])
  }

  /** A token of a command line: non-empty and free of whitespace. */
  predicate IsToken(w: string)
  {
    w != [] && forall i | 0 <= i < |w| :: !IsSpace(w[i])
  }

  /** A line is blank exactly when it is all whitespace. */
  lemma BlankIffAllSpace(line: string)
    ensures ParseLine(line) == Blank <==> AllSpace(line)
  {
    StripEmptyIffAllSpace(line);
    if Strip(line) != [] {
      WordsEmptyIffStripEmpty(Strip(line));
      StripIdempotent(line);
    }
  }

  lemma StripIdempotent(s: string)
    ensures Strip(Strip(s)) == Strip(s)
  {
    var r := Strip(s);
    if r != [] {
      assert !IsSpace(r[0]);
      var l := StripRight(r);
      assert r == StripLeft(StripRight(s));
      assert !IsSpace(r[|r| - 1]);
      assert StripRight(r) == r;
      assert StripLeft(r) == r;
    }
  }

  /**
   * Typing a command word followed by argument words, separated by single
   * spaces, is read back as that command (lower-cased) with exactly those
   * arguments.
   */
  lemma ParseTyped(cmd: string, args: seq<string>)
    requires IsToken(cmd) && forall k | 0 <= k < |args| :: IsToken(args[k])
    ensures ParseLine(Join([cmd] + args, " ")) == Named(Lower(cmd), args)
  {
    var ws := [cmd] + args;
    var line := Join(ws, " ");
    JoinTokensStripped(ws);
    WordsOfJoin(ws);
    assert Words(line) == ws;
  }

  /** The tokens joined by spaces start and end with a token character. */
  lemma {:induction false} JoinTokensEnds(ws: seq<string>)
    requires ws != [] && forall k | 0 <= k < |ws| :: IsToken(ws[k])
    ensures var s := Join(ws, " "); s != [] && !IsSpace(s[0]) && !IsSpace(s[|s| - 1])
    decreases |ws|
  {
    assert IsToken(ws[0]);
    if |ws| > 1 {
      JoinTokensEnds(ws[1..]);
      var rest := Join(ws[1..], " ");
      assert Join(ws, " ") == ws[0] + " " + rest;
    }
  }

  lemma StripLeftNoop(s: string)
    requires s != [] && !IsSpace(s[0])
    ensures StripLeft(s) == s
  {
  }

  lemma StripRightNoop(s: string)
    requires s != [] && !IsSpace(s[|s| - 1])
    ensures StripRight(s) == s
  {
  }

  /** Joined tokens have nothing to strip. */
  lemma JoinTokensStripped(ws: seq<string>)
    requires ws != [] && forall k | 0 <= k < |ws| :: IsToken(ws[k])
    ensures Strip(Join(ws, " ")) == Join(ws, " ")
  {
    var s := Join(ws, " ");
    JoinTokensEnds(ws);
    StripRightNoop(s);
    StripLeftNoop(s);
  }

  /** The first word of a token followed by a space (or nothing) is the token. */
  lemma {:induction false} WordOfToken(w: string, rest: string)
    requires IsToken(w) && (rest == [] || IsSpace(rest[0]))
    ensures Word(w + rest) == w
    decreases |w|
  {
    if |w| == 1 {
      assert (w + rest)[0] == w[0];
      assert (w + rest)[1..] == rest;
    } else {
      assert (w + rest)[0] == w[0];
      assert (w + rest)[1..] == w[1..] + rest;
      WordOfToken(w[1..], rest);
      assert [w[0]] + w[1..] == w;
    }
  }

  /** Leading whitespace does not change what split() finds. */
  lemma WordsAfterSpace(j: string)
    requires j != [] && !IsSpace(j[0])
    ensures Words(" " + j) == Words(j)
  {
    assert (" " + j)[1..] == j;
    StripLeftNoop(j);
  }

  /** split() of a text that starts with a word: that word, then the words of the remainder. */
  lemma WordsUnfold(s: string)
    requires s != [] && !IsSpace(s[0])
    ensures Words(s) == [Word(s)] + Words(s[|Word(s)|..])
  {
    StripLeftNoop(s);
  }

  /** A token, a space and more text: split() gives the token first. */
  lemma WordsOfTokenThen(w: string, j: string)
    requires IsToken(w) && j != [] && !IsSpace(j[0])
    ensures Words(w + (" " + j)) == [w] + Words(j)
  {
    var s := w + (" " + j);
    assert s[0] == w[0];
    WordsUnfold(s);
    WordOfToken(w, " " + j);
    assert s[|w|..] == " " + j;
    WordsAfterSpace(j);
  }

  /** A lone token: split() gives just the token. */
  lemma WordsOfToken(w: string)
    requires IsToken(w)
    ensures Words(w) == [w]
  {
    WordsUnfold(w);
    WordOfToken(w, []);
    assert w + [] == w;
    assert w[|w|..] == [];
  }

  /** Joining two or more parts puts the separator after the first. */
  lemma JoinCons(ws: seq<string>, sep: string)
    requires |ws| >= 2
    ensures Join(ws, sep) == ws[0] + (sep + Join(ws[1..], sep))
  {
    assert Join(ws, sep) == ws[0] + sep + Join(ws[1..], sep);
  }

  /** split() of tokens joined by single spaces gives the tokens back. */
  lemma {:induction false} WordsOfJoin(ws: seq<string>)
    requires forall k | 0 <= k < |ws| :: IsToken(ws[k])
    ensures Words(Join(ws, " ")) == ws
    decreases |ws|
  {
    if ws == [] {
    } else if |ws| == 1 {
      WordsOfToken(ws[0]);
    } else {
      var rest := ws[1..];
      assert ws == [ws[0]] + rest;
      assert forall k | 0 <= k < |rest| :: rest[k] == ws[k + 1];
      var j := Join(rest, " ");
      JoinCons(ws, " ");
      JoinTokensEnds(rest);
      WordsOfTokenThen(ws[0], j);
      WordsOfJoin(rest);
    }
  }

  // ---------------------------------------------------------------------
  // Ordering names for help
  // ---------------------------------------------------------------------

  /** Python's `<` on strings: code point by code point, a proper prefix first. */
  predicate Less(a: string, b: string)
  {
    if a == [] then b != []
    else if b == [] then false
    else if a[0] != b[0] then a[0] < b[0]
    else Less(a[1..], b[1..])
  }

  /** Two different strings are ordered one way or the other, never both. */
  lemma {:induction false} LessTrichotomy(a: string, b: string)
    ensures a == b || Less(a, b) || Less(b, a)
    ensures !(Less(a, b) && Less(b, a)) && !Less(a, a)
    decreases |a|
  {
    if a != [] && b != [] && a[0] == b[0] {
      LessTrichotomy(a[1..], b[1..]);
      if a[1..] == b[1..] {
        assert a == [a[0]] + a[1..] && b == [b[0]] + b[1..];
      }
    } else if a != [] {
      LessTrichotomy(a[1..], a[1..]);
    }
  }

  predicate StrictlySorted(s: seq<string>)
  {
    forall i | 0 <= i < |s| - 1 :: Less(s[i], s[i + 1])
  }

  /** A name inserted into its place in a sorted list. */
  function Insert(s: seq<string>, k: string): (r: seq<string>)
    requires StrictlySorted(s) && k !in s
    ensures StrictlySorted(r)
    ensures forall x :: x in r <==> x in s || x == k
    ensures |r| == |s| + 1
  {
    if s == [] then [k]
    else if Less(k, s[0]) then
      LessTrichotomy(k, s[0]);
      [k] + s
    else
      LessTrichotomy(k, s[0]);
      var t := Insert(s[1..], k);
      assert forall x :: x in s <==> x == s[0] || x in s[1..];
      assert t != [] && (t[0] == k || t[0] == s[1]);
      [s[0]] + t
  }

  /** The names of the commands, sorted, each once. */
  method SortedNames(commands: map<string, DevCommand>) returns (names: seq<string>)
    ensures StrictlySorted(names)
    ensures forall x :: x in names <==> x in commands
    ensures |names| == |commands.Keys|
  {
    names := [];
    var rem := commands.Keys;
    while rem != {}
      invariant rem <= commands.Keys
      invariant StrictlySorted(names)
      invariant forall x :: x in names <==> x in commands && x !in rem
      invariant |names| + |rem| == |commands.Keys|
      decreases |rem|
    {
      var k :| k in rem;
      names := Insert(names, k);
      rem := rem - {k};
    }
  }

  /** f"{name:15}": the name left-aligned in a field of 15 characters. */
  function Pad15(name: string): (r: string)
    ensures |r| == if |name| >= 15 then |name| else 15
    ensures r[..|name|] == name && forall i | |name| <= i < |r| :: r[i] == ' '
  {
    if |name| >= 15 then name else name + seq(15 - |name|, _ => ' ')
  }

  /** The two help lines of a command. */
  function HelpLines(c: DevCommand): seq<string>
  {
    [Pad15(c.name) + " - " + c.description, "                Uso: " + c.usage]
  }

  /** The console's help text: a title, then two lines per name, in the order given. */
  function HelpText(commands: map<string, DevCommand>, names: seq<string>): (r: seq<string>)
    requires forall i | 0 <= i < |names| :: names[i] in commands
    ensures |r| == 1 + 2 * |names| && r[0] == "=== COMANDOS DE DESARROLLO ==="
    ensures forall i | 0 <= i < |names| :: r[1 + 2 * i] == Pad15(commands[names[i]].name) + " - " + commands[names[i]].description
    ensures forall i | 0 <= i < |names| :: r[2 + 2 * i] == "                Uso: " + commands[names[i]].usage
  {
    if names == [] then ["=== COMANDOS DE DESARROLLO ==="]
    else
      var r := HelpText(commands, names[..|names| - 1]) + HelpLines(commands[names[|names| - 1]]);
      assert forall i | 0 <= i < |names| - 1 :: names[..|names| - 1][i] == names[i];
      r
  }

  // ---------------------------------------------------------------------
  // Handlers
  // ---------------------------------------------------------------------

  /** The gold after `gold <amount>`: never below zero. */
  function GoldAfter(gold: int, amount: int): (g: int)
    ensures g >= 0 && g >= gold + amount
    ensures gold + amount >= 0 ==> g == gold + amount
  {
    if gold + amount > 0 then gold + amount else 0
  }

  /** _cmd_gold: a numeric argument moves the gold by that amount, floored at zero; anything else changes nothing. */
  method CmdGold(player: Player.Player, args: seq<string>) returns (messages: seq<string>)
    modifies player`gold
    ensures args == [] ==> messages == ["Uso: gold <cantidad> (ej: gold 1000)"] && player.gold == old(player.gold)
    ensures args != [] && ParseInt(args[0]).None? ==>
      messages == ["La cantidad debe ser un número."] && player.gold == old(player.gold)
    ensures args != [] && ParseInt(args[0]).Some? ==>
      player.gold == GoldAfter(old(player.gold), ParseInt(args[0]).value) &&
      messages == ["Oro modificado. Total: " + IntToString(player.gold)]
  {
    if args == [] {
      return ["Uso: gold <cantidad> (ej: gold 1000)"];
    }
    var amount := ParseInt(args[0]);
    if amount.None? {
      return ["La cantidad debe ser un número."];
    }
    var g := player.gold + amount.value;
    player.gold := if g > 0 then g else 0;
    messages := ["Oro modificado. Total: " + IntToString(player.gold)];
  }

  const MIN_FLOOR: int := 1
  const MAX_FLOOR: int := 10

  /** _cmd_goto: a floor between 1 and 10 is accepted and reported for the game to move to. */
  method CmdGoto(args: seq<string>) returns (messages: seq<string>, floor: Option<int>)
    ensures args == [] ==> messages == ["Uso: goto <piso> (ej: goto 5)"] && floor == None
    ensures args != [] && ParseInt(args[0]).None? ==> messages == ["El piso debe ser un número."] && floor == None
    ensures floor.Some? <==> args != [] && ParseInt(args[0]).Some? && MIN_FLOOR <= ParseInt(args[0]).value <= MAX_FLOOR
    ensures floor.Some? ==>
      floor.value == ParseInt(args[0]).value && messages == ["Teletransportado al piso " + IntToString(floor.value) + "."]
    ensures args != [] && ParseInt(args[0]).Some? && floor.None? ==> messages == ["El piso debe estar entre 1 y 10."]
  {
    if args == [] {
      return ["Uso: goto <piso> (ej: goto 5)"], None;
    }
    var f := ParseInt(args[0]);
    if f.None? {
      return ["El piso debe ser un número."], None;
    }
    if f.value < MIN_FLOOR || f.value > MAX_FLOOR {
      return ["El piso debe estar entre 1 y 10."], None;
    }
    messages, floor := ["Teletransportado al piso " + IntToString(f.value) + "."], f;
  }

  /** _cmd_teleport: the player moves to (x, y) only when both parse and the cell is walkable. */
  method CmdTeleport(player: Player.Player, zone: Zone.Zone, args: seq<string>) returns (messages: seq<string>)
    requires zone.Valid()
    modifies player.body`x, player.body`y
    ensures |args| < 2 ==> messages == ["Uso: teleport <x> <y> (ej: teleport 40 20)"]
    ensures |args| >= 2 && (ParseInt(args[0]).None? || ParseInt(args[1]).None?) ==>
      messages == ["Las coordenadas deben ser números."]
    ensures var moved := |args| >= 2 && ParseInt(args[0]).Some? && ParseInt(args[1]).Some? &&
                         zone.IsWalkable(ParseInt(args[0]).value, ParseInt(args[1]).value);
      (moved ==> player.body.x == ParseInt(args[0]).value && player.body.y == ParseInt(args[1]).value &&
                 messages == ["Teletransportado a (" + IntToString(ParseInt(args[0]).value) + ", " +
                              IntToString(ParseInt(args[1]).value) + ")."]) &&
      (!moved ==> player.body.x == old(player.body.x) && player.body.y == old(player.body.y))
    ensures (|args| >= 2 && ParseInt(args[0]).Some? && ParseInt(args[1]).Some? &&
             !zone.IsWalkable(ParseInt(args[0]).value, ParseInt(args[1]).value)) ==>
      messages == ["Posición no transitable."]
  {
    if |args| < 2 {
      return ["Uso: teleport <x> <y> (ej: teleport 40 20)"];
    }
    var x := ParseInt(args[0]);
    var y := ParseInt(args[1]);
    if x.None? || y.None? {
      return ["Las coordenadas deben ser números."];
    }
    if zone.IsWalkable(x.value, y.value) {
      player.body.x, player.body.y := x.value, y.value;
      messages := ["Teletransportado a (" + IntToString(x.value) + ", " + IntToString(y.value) + ")."];
    } else {
      messages := ["Posición no transitable."];
    }
  }

  /** _cmd_heal: the player is back at full health. */
  method CmdHeal(player: Player.Player) returns (messages: seq<string>)
    modifies player.fighter`hp
    ensures player.fighter.maxHp >= 0 ==> player.fighter.hp == player.fighter.maxHp
    ensures messages == ["Jugador curado completamente."]
  {
    player.fighter.SetHp(player.fighter.maxHp);
    messages := ["Jugador curado completamente."];
  }

  /** The commands a new manager registers, by name. */
  function DefaultCommands(): map<string, DevCommand>
  {
    map[
      "goto" := DevCommand("goto", "Teletransporta al jugador a un piso específico", "goto 5", Goto),
      "give" := DevCommand("give", "Da un item al jugador", "give health_potion", Give),
      "gold" := DevCommand("gold", "Modifica el oro del jugador", "gold 1000", Gold),
      "heal" := DevCommand("heal", "Cura completamente al jugador", "heal", Heal),
      "level" := DevCommand("level", "Establece el nivel del jugador", "level 10", Level),
      "xp" := DevCommand("xp", "Añade experiencia al jugador", "xp 1000", Xp),
      "teleport" := DevCommand("teleport", "Teletransporta al jugador a coordenadas específicas", "teleport 40 20", Teleport),
      "event" := DevCommand("event", "Activa un evento manualmente", "event stranger_floor5_met", Event),
      "killall" := DevCommand("killall", "Mata a todos los enemigos en el piso actual", "killall", Killall),
      "amulet" := DevCommand("amulet", "Da el Amuleto de Yendor al jugador", "amulet", Amulet),
      "clear" := DevCommand("clear", "Limpia el log de mensajes", "clear", Clear),
      "npc_state" := DevCommand("npc_state", "Muestra o establece el estado de diálogo de un NPC",
                                "npc_state <npc_name> [node_id]", NpcState),
      "help" := DevCommand("help", "Muestra la lista de comandos disponibles", "help", Help)
    ]
  }

  /** Every command is filed under its own name. */
  predicate Keyed(commands: map<string, DevCommand>)
  {
    forall n | n in commands :: commands[n].name == n
  }

  class DevCommandManager {
    var commands: map<string, DevCommand>
    var enabled: bool

    /** An enabled console with the thirteen built-in commands. */
    constructor ()
      ensures enabled && commands == DefaultCommands() && Keyed(commands)
    {
      commands := DefaultCommands();
      enabled := true;
    }

    /** register_command: the command is filed under its name, replacing any command of that name. */
    method RegisterCommand(name: string, description: string, usage: string, handler: Handler)
      modifies this`commands
      ensures commands == old(commands)[name := DevCommand(name, description, usage, handler)]
      ensures old(Keyed(commands)) ==> Keyed(commands)
      ensures commands.Keys == old(commands.Keys) + {name}
    {
      commands := commands[name := DevCommand(name, description, usage, handler)];
    }

    /** _cmd_help: the title, then two lines per command in name order. */
    method CmdHelp() returns (messages: seq<string>)
      ensures exists names: seq<string> | StrictlySorted(names) && |names| == |commands.Keys| &&
        (forall x :: x in names <==> x in commands) :: messages == HelpText(commands, names)
    {
      var names := SortedNames(commands);
      messages := HelpText(commands, names);
    }

    /**
     * execute: the disabled reply, nothing for a blank line, the unknown
     * reply for a name no command has; otherwise the command's handler
     * runs, and an exception from it becomes one error line.  `external`
     * is the outcome of a handler the game runs.
     */
    method Execute(line: string, player: Player.Player, zone: Zone.Zone, external: HandlerOutcome)
      returns (messages: seq<string>, floor: Option<int>)
      requires zone.Valid()
      modifies player`gold, player.body`x, player.body`y, player.fighter`hp
      ensures !enabled ==> messages == [DISABLED_MESSAGE] && floor == None && unchanged(player, player.body, player.fighter)
      ensures enabled && ParseLine(line) == Blank ==> messages == [] && unchanged(player, player.body, player.fighter)
      ensures enabled && ParseLine(line).Named? && ParseLine(line).name !in commands ==>
        messages == [UnknownMessage(ParseLine(line).name)] && unchanged(player, player.body, player.fighter)
      ensures floor.Some? ==>
        (enabled && ParseLine(line).Named? && ParseLine(line).name in commands &&
         commands[ParseLine(line).name].handler == Goto && MIN_FLOOR <= floor.value <= MAX_FLOOR)
      ensures (enabled && ParseLine(line).Named? && ParseLine(line).name in commands &&
               commands[ParseLine(line).name].handler !in {Gold, Goto, Teleport, Heal, Help}) ==>
        messages == Finish(external) && unchanged(player, player.body, player.fighter)
    {
      floor := None;
      if !enabled {
        return [DISABLED_MESSAGE], None;
      }
      var parsed := ParseLine(line);
      if parsed.Blank? {
        return [], None;
      }
      if parsed.name !in commands {
        return [UnknownMessage(parsed.name)], None;
      }
      messages, floor := Run(commands[parsed.name].handler, parsed.args, player, zone, external);
    }

    /** command.handler(game, args), for the handler the name found. */
    method Run(handler: Handler, args: seq<string>, player: Player.Player, zone: Zone.Zone, external: HandlerOutcome)
      returns (messages: seq<string>, floor: Option<int>)
      requires zone.Valid()
      modifies player`gold, player.body`x, player.body`y, player.fighter`hp
      ensures floor.Some? ==> handler == Goto && MIN_FLOOR <= floor.value <= MAX_FLOOR
      ensures handler !in {Gold, Goto, Teleport, Heal, Help} ==>
        messages == Finish(external) && unchanged(player, player.body, player.fighter)
    {
      floor := None;
      match handler {
        case Gold => messages := CmdGold(player, args);
        case Goto => messages, floor := CmdGoto(args);
        case Teleport => messages := CmdTeleport(player, zone, args);
        case Heal => messages := CmdHeal(player);
        case Help => messages := CmdHelp();
        case _ => messages := Finish(external);
      }
    }
  }

  /** help lists every command: one title line and two lines for each. */
  lemma HelpLength(commands: map<string, DevCommand>, names: seq<string>)
    requires |names| == |commands.Keys| && forall x :: x in names <==> x in commands
    ensures |HelpText(commands, names)| == 1 + 2 * |commands|
  {
  }

  /** Registering again under the same name keeps one command, the last one. */
  lemma ReRegisterReplaces(commands: map<string, DevCommand>, a: DevCommand, b: DevCommand)
    requires a.name == b.name
    ensures commands[a.name := a][b.name := b] == commands[b.name := b]
    ensures |commands[a.name := a][b.name := b].Keys| == |commands[b.name := b].Keys|
  {
  }
}
