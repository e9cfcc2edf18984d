/** The command reader of the dinosaur scene: each message from the server
    carries one command ended by CRLF, and the command picks the
    dinosaur's next action. */
module SocketScript {
  import opened Exceptions

  /** DinoController.Action. */
  datatype Action = Jumping | Attack | LeftJump | RightJump | Hit | Die | Idle | LookLeft | LookRight

  /** The commands the switch knows and the action each one selects. */
  const Commands: map<string, Action> :=
    map["FAR" := Hit, "NEAR" := Jumping, "LEFT" := LookLeft, "RIGHT" := LookRight, "UP" := Jumping, "DOWN" := Idle]

  /** A CRLF pair starts at position `i` of `s`. */
  predicate CrlfAt(s: string, i: int) {
    0 <= i && i + 1 < |s| && s[i] == '\r' && s[i + 1] == '\n'
  }

  /** String.IndexOf("\r\n"): where the first CRLF of `s` starts, or -1 when
      `s` holds none. */
  function IndexOfCrlf(s: string): (i: int)
    ensures i == -1 <==> forall j :: !CrlfAt(s, j)
    ensures i != -1 ==> CrlfAt(s, i) && forall j :: 0 <= j < i ==> !CrlfAt(s, j)
  {
    if |s| < 2 then -1
    else if CrlfAt(s, 0) then 0
    else
      var k := IndexOfCrlf(s[1..]);
      assert forall j :: 1 <= j ==> (CrlfAt(s, j) <==> CrlfAt(s[1..], j - 1));
      if k == -1 then -1 else assert CrlfAt(s, k + 1); k + 1
  }

  /** serverSays.Substring(0, serverSays.IndexOf("\r\n")): the part of the
      message in front of its first CRLF. Without a CRLF, IndexOf answers -1
      and Substring throws. */
  function CommandOf(message: string): (r: Outcome<string>)
    ensures r.Throws? <==> forall j :: !CrlfAt(message, j)
    ensures r.Throws? ==> r.fault == ArgumentOutOfRange
    ensures r.Ok? ==> && CrlfAt(message, |r.value|)
                      && r.value == message[..|r.value|]
                      && forall j :: 0 <= j < |r.value| ==> !CrlfAt(message, j)
  {
    var i := IndexOfCrlf(message);
    if i < 0 then Throws(ArgumentOutOfRange) else Ok(message[..i])
  }

  /** A command with no CRLF of its own, sent with its CRLF and anything
      after it, is read back as itself. */
  lemma {:induction false} CommandOfFramed(command: string, rest: string)
    requires forall j :: !CrlfAt(command, j)
    ensures CommandOf(command + "\r\n" + rest) == Ok(command)
  {
    var m := command + "\r\n" + rest;
    assert CrlfAt(m, |command|);
    forall j | 0 <= j < |command|
      ensures !CrlfAt(m, j)
    {
      if j + 1 < |command| {
        assert !CrlfAt(command, j);
      } else {
        assert m[j + 1] == '\r';
      }
    }
    var r := CommandOf(m);
    assert |r.value| == |command|;
    assert m[..|command|] == command;
  }

  /** The switch on the command: a known command selects its action, any
      other leaves the current action as it is. */
  function ActionAfter(command: string, current: Action): (a: Action)
    ensures command in Commands ==> a == Commands[command]
    ensures command !in Commands ==> a == current
  {
    match command
    case "FAR" => Hit
    case "NEAR" => Jumping
    case "LEFT" => LookLeft
    case "RIGHT" => LookRight
    case "UP" => Jumping
    case "DOWN" => Idle
    case _ => current
  }

  /** Every command of the table, sent framed by CRLF, selects its own
      action whatever the dinosaur was doing. */
  lemma {:induction false} FramedCommandSelects(command: string, rest: string, current: Action)
    requires command in Commands
    ensures CommandOf(command + "\r\n" + rest) == Ok(command)
    ensures ActionAfter(CommandOf(command + "\r\n" + rest).value, current) == Commands[command]
  {
    assert command in {"FAR", "NEAR", "LEFT", "RIGHT", "UP", "DOWN"};
    assert forall i :: 0 <= i < |command| ==> command[i] != '\r';
    CommandOfFramed(command, rest);
  }

  /** The part of DinoController the command reader writes. */
  class DinoController {
    var action: Action

    /** Start, as far as the action goes: the dinosaur starts idle. */
    constructor ()
      ensures action == Idle
    {
      action := Idle;
    }
  }

  /** socketScript: reads a message from the server on every frame. */
  class SocketScript {
    var command: string
    const dinoController: DinoController

    /** Start: the script finds the DinoController of its dinosaur (here
        given by the caller); the serialized `command` starts empty. */
    constructor (dinoController: DinoController)
      ensures this.dinoController == dinoController && command == ""
    {
      this.dinoController := dinoController;
      command := "";
    }

    /** SocketResponse, for the message `serverSays` the socket returned:
        an empty message changes nothing; otherwise the command in front of
        the first CRLF is stored and selects the dinosaur's action, and a
        message without CRLF throws before anything is stored. */
    method SocketResponse(serverSays: string) returns (r: Outcome<()>)
      modifies this, dinoController
      ensures serverSays == "" ==>
        r == Ok(()) && command == old(command) && dinoController.action == old(dinoController.action)
      ensures serverSays != "" ==>
        match CommandOf(serverSays)
        case Throws(f) =>
          r == Throws(f) && command == old(command) && dinoController.action == old(dinoController.action)
        case Ok(c) =>
          r == Ok(()) && command == c && dinoController.action == ActionAfter(c, old(dinoController.action))
    {
      if serverSays != "" {
        var i := IndexOfCrlf(serverSays);
        if i < 0 {
          return Throws(ArgumentOutOfRange);
        }
        command := serverSays[..i];
        match command {
          case "FAR" => dinoController.action := Hit;
          case "NEAR" => dinoController.action := Jumping;
          case "LEFT" => dinoController.action := LookLeft;
          case "RIGHT" => dinoController.action := LookRight;
          case "UP" => dinoController.action := Jumping;
          case "DOWN" => dinoController.action := Idle;
          case _ =>
        }
      }
      r := Ok(());
    }
  }
}
