/**
 The built-in engine's answer on a surface: create it, stream the reply in pieces, make the
 reply its fallback, and close it unless it offers choices.
 */
module RuleReplies {
  import opened Basics
  import opened Utf8
  import opened Surface
  import opened SurfacePlan
  import opened SurfacePlanner
  import opened SurfaceReplies
  import opened SurfaceReplyLimits
  import Chunking

  const REPLY: Id := "reply"

  function Limit(chunkBytes: nat): (r: nat) {
    if chunkBytes < 4 then 4 else chunkBytes
  }

  /** What follows the creation of `content`. */
  ghost function Commands(content: Content, reply: seq<Byte>, chunkBytes: nat, choices: bool): (r: seq<Command>)
    requires Valid(reply)
  {
    var full := WithText(content, REPLY, reply);
    Marked(content.surface, REPLY, Chunking.Pieces(reply, Limit(chunkBytes)), true)
    + [Patch(content.surface, Hash(full), [SetFallback(reply)], Hash(full.(fallback := reply)))]
    + (if choices then [] else [Close(content.surface)])
  }

  method Intents(content: Content, reply: seq<Byte>, chunkBytes: nat, choices: bool) returns (commands: seq<Command>)
    requires Valid(reply)
    ensures commands == [Create(content)] + Commands(content, reply, chunkBytes, choices)
  {
    hide Marked, WithText;
    var parts := Chunking.Chunks(reply, chunkBytes);
    var appends := AppendPieces(content.surface, REPLY, parts, true);
    commands := [Create(content)] + appends;
    var full := WithText(content, REPLY, reply);
    commands := commands + [Patch(content.surface, Hash(full), [SetFallback(reply)], Hash(full.(fallback := reply)))];
    if !choices {
      commands := commands + [Close(content.surface)];
    }
    assert commands == [Create(content)] + Commands(content, reply, chunkBytes, choices);
  }

  lemma {:induction false} MarkedAppends(surface: Id, id: Id, parts: seq<seq<Byte>>, last: bool)
    ensures forall h :: h in Marked(surface, id, parts, last) ==> h.Append?
  {
    if parts != [] {
      MarkedAppends(surface, id, parts[1..], last);
    }
  }

  /** The engine's replies are of the kind that can be resumed at any point without meeting a limit. */
  lemma ResumableReply(content: Content, reply: seq<Byte>, chunkBytes: nat, choices: bool)
    requires Valid(reply)
    ensures forall h :: h in Commands(content, reply, chunkBytes, choices) ==> Reply(h)
    ensures TextFirst(Commands(content, reply, chunkBytes, choices))
  {
    var appends := Marked(content.surface, REPLY, Chunking.Pieces(reply, Limit(chunkBytes)), true);
    MarkedAppends(content.surface, REPLY, Chunking.Pieces(reply, Limit(chunkBytes)), true);
    var all := Commands(content, reply, chunkBytes, choices);
    assert forall i :: 0 <= i < |appends| ==> all[i] == appends[i];
    assert forall i :: |appends| <= i < |all| ==> !all[i].Append? && Reply(all[i]);
    assert forall i :: 0 <= i < |appends| ==> appends[i] in appends;
  }
}
