/** A D-Bus message under construction. It demands of its callers what libdbus demands: every value
    appended to a container has the type the container was opened for, and containers are closed
    when they are complete. */
module MessageWriter {
  import opened DBusValues
  import opened Lists

  /** An open container: its kind, declared signature, and the signatures of the values in it so far. */
  datatype Frame = Frame(kind: char, sig: string, filled: seq<string>)

  /** A value of signature `s` may be appended to the innermost container. */
  predicate Accepts(stack: seq<Frame>, s: string) {
    stack == [] || (
      var f := stack[|stack| - 1];
      match f.kind
      case 'a' => s == f.sig
      case 'v' => f.filled == [] && s == f.sig
      case 'e' => if f.filled == [] then BasicSig(s) else |f.filled| == 1
      case _ => false)
  }

  /** The innermost container has taken a value of signature `s`. */
  function Took(stack: seq<Frame>, s: string): seq<Frame> {
    if stack == [] then []
    else stack[|stack| - 1 := stack[|stack| - 1].(filled := stack[|stack| - 1].filled + [s])]
  }

  lemma TookTop(stack: seq<Frame>, f: Frame, s: string)
    ensures Took(stack + [f], s) == stack + [f.(filled := f.filled + [s])]
  {
  }

  /** The signature of a finished container. */
  function Finished(f: Frame): Option<string> {
    match f.kind
    case 'a' => Some("a" + f.sig)
    case 'v' => if |f.filled| == 1 then Some("v") else None
    case 'e' => if |f.filled| == 2 then Some("{" + f.filled[0] + f.filled[1] + "}") else None
    case _ => None
  }

  class Message {
    var tokens: seq<Token>
    var stack: seq<Frame>

    constructor ()
      ensures tokens == [] && stack == []
    {
      tokens, stack := [], [];
    }

    /** `dbus_message_iter_append_basic`. */
    method AppendBasic(v: DValue)
      requires v.Basic() && Accepts(stack, Sig(v))
      modifies this
      ensures tokens == old(tokens) + Tokens(v) && stack == Took(old(stack), Sig(v))
    {
      tokens := tokens + [Value(v)];
      stack := Took(stack, Sig(v));
    }

    /** `dbus_message_iter_open_container`; a dictionary entry opens only in an array of entries. */
    method OpenContainer(kind: char, sig: string)
      requires kind == 'a' ==> Accepts(stack, "a" + sig)
      requires kind == 'v' ==> Accepts(stack, "v")
      requires kind == 'e' ==> stack != [] && stack[|stack| - 1].kind == 'a' && stack[|stack| - 1].sig != "" && stack[|stack| - 1].sig[0] == '{'
      modifies this
      ensures tokens == old(tokens) + [Open(kind, sig)] && stack == old(stack) + [Frame(kind, sig, [])]
    {
      tokens := tokens + [Open(kind, sig)];
      stack := stack + [Frame(kind, sig, [])];
    }

    /** `dbus_message_iter_close_container`: the container is complete and fits its parent. */
    method CloseContainer()
      requires stack != []
      requires Finished(stack[|stack| - 1]).Some?
      requires Accepts(stack[..|stack| - 1], Finished(stack[|stack| - 1]).value)
      modifies this
      ensures tokens == old(tokens) + [Close]
      ensures stack == Took(old(stack)[..|old(stack)| - 1], Finished(old(stack)[|old(stack)| - 1]).value)
    {
      var s := Finished(stack[|stack| - 1]).value;
      tokens := tokens + [Close];
      stack := Took(stack[..|stack| - 1], s);
    }
  }

  /** The end of an array. */
  method CloseArray(m: Message, sig: string, ghost before: seq<Frame>)
    requires |m.stack| == |before| + 1 && m.stack[..|m.stack| - 1] == before && Accepts(before, "a" + sig)
    requires m.stack[|m.stack| - 1].kind == 'a' && m.stack[|m.stack| - 1].sig == sig
    modifies m
    ensures m.tokens == old(m.tokens) + [Close] && m.stack == Took(before, "a" + sig)
  {
    m.CloseContainer();
  }

  /** The end of a variant that has taken its one value. */
  method CloseVariant(m: Message, sig: string, ghost before: seq<Frame>)
    requires m.stack == Took(before + [Frame('v', sig, [])], sig) && Accepts(before, "v")
    modifies m
    ensures m.tokens == old(m.tokens) + [Close] && m.stack == Took(before, "v")
  {
    TookTop(before, Frame('v', sig, []), sig);
    assert m.stack[..|m.stack| - 1] == before;
    m.CloseContainer();
  }
}
