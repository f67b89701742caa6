/** The client's two data handlers, around the parser it keeps. */
module ClientClass {
  import opened Bytes
  import opened Outcomes
  import opened Parser
  import ParserClass
  import Events
  import Streamer

  class Client {
    const parser: ParserClass.MutelemetryParser
    var sequenceKeeper: set<nat>
    var msgCntr: nat
    ghost var accepted: seq<seq<byte>>   // definitions taken as new
    ghost var checked: seq<seq<byte>>    // everything given to the check, in order

    /** The parser is in the state the checks so far lead to. */
    ghost predicate Valid()
      reads this, parser
    {
      Events.FeedAll(NewParser(), checked, true) == Ok(parser.Abs())
    }

    constructor ()
      ensures Valid() && fresh(parser) && sequenceKeeper == {} && msgCntr == 0 && accepted == [] && checked == []
    {
      parser := new ParserClass.MutelemetryParser();
      sequenceKeeper, msgCntr := {}, 0;
      accepted, checked := [], [];
    }

    /** `check_ulog_valid`; its result is false exactly when the parser has become INVALID. */
    method Check(buffer: seq<byte>) returns (r: Result<bool>)
      requires Valid() && CheckUlogValid(parser.Abs(), buffer) != Err(Endless)
      modifies parser, this`checked
      ensures checked == old(checked) + [buffer]
      ensures r.Ok? <==> CheckUlogValid(old(parser.Abs()), buffer).Ok?
      ensures r.Ok? ==> Valid() && r.value == Events.Accepted(NewParser(), checked, true)
    {
      assert (checked + [buffer])[..|checked|] == checked;
      r := parser.CheckValid(buffer);
      checked := checked + [buffer];
    }

    /** The LOGGING_DATA_ACKED handler: a sequence number is taken once, and always acknowledged. */
    method LoggingDataAcked(sequence: nat, data: seq<byte>) returns (ack: nat, r: Result<bool>)
      requires Valid() && (sequence !in sequenceKeeper ==> CheckUlogValid(parser.Abs(), data) != Err(Endless))
      modifies this, parser
      ensures var p := Streamer.Packet(sequence, data);
        var net := Streamer.LoggingDataAcked(Streamer.Net({p}, {}, old(sequenceKeeper), old(accepted)), p);
        sequenceKeeper == net.keeper && accepted == net.accepted && net.acks == {ack}
      ensures checked == old(checked) + (if sequence in old(sequenceKeeper) then [] else [data])
      ensures msgCntr == old(msgCntr)
      ensures r.Ok? ==>
        Valid() && (sequence in old(sequenceKeeper) || r.value == Events.Accepted(NewParser(), checked, true))
    {
      var isNew := false;
      if sequence !in sequenceKeeper {
        sequenceKeeper := sequenceKeeper + {sequence};
        isNew := true;
      }
      r := Ok(true);
      if isNew {
        accepted := accepted + [data];
        r := Check(data);
      } else {
        assert sequenceKeeper + {sequence} == sequenceKeeper;
      }
      ack := sequence;
    }

    /** The LOGGING_DATA handler. */
    method LoggingData(data: seq<byte>) returns (r: Result<bool>)
      requires Valid() && CheckUlogValid(parser.Abs(), data) != Err(Endless)
      modifies this`msgCntr, this`checked, parser
      ensures msgCntr == old(msgCntr) + 1 && checked == old(checked) + [data]
      ensures r.Ok? ==> Valid() && r.value == Events.Accepted(NewParser(), checked, true)
    {
      msgCntr := msgCntr + 1;
      r := Check(data);
    }
  }

  /** What a run of checks that passes says of each single one: it is defined, and it passes. */
  lemma EachPasses(run: seq<seq<byte>>, next: seq<byte>, rest: seq<seq<byte>>)
    requires Events.Accepted(NewParser(), run + [next] + rest, true)
    ensures Events.FeedAll(NewParser(), run, true).Ok?
    ensures var r := CheckUlogValid(Events.FeedAll(NewParser(), run, true).value, next);
      r.Ok? && r.value.state != INVALID
  {
    Events.BeginningAccepted(NewParser(), run + [next], rest, true);
    assert (run + [next])[..|run|] == run;
  }
}
