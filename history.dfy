/** The chat history of the Streamlit session (app.py:192, 210-219): each submitted question
    and its answer are appended, the stored list is cut back to its last ten exchanges, and
    the page shows the last five. */
module History {

  /** One `(question, answer)` pair of `st.session_state.chat_history`. */
  datatype Exchange = Exchange(question: string, answer: string)

  /** The stored history is cut back to this many exchanges. */
  const StoredLimit: nat := 10

  /** The page shows at most this many exchanges. */
  const DisplayLimit: nat := 5

  function Min(a: nat, b: nat): nat { if a <= b then a else b }

  /** `xs[-n:] if len(xs) > n else xs`: the newest `min(n, |xs|)` elements, in their order;
      elements are dropped from the front only. */
  function KeepLast<T>(xs: seq<T>, n: nat): (r: seq<T>)
    ensures |r| == Min(n, |xs|)
    ensures forall k :: 0 <= k < |r| ==> r[k] == xs[|xs| - |r| + k]
  {
    if |xs| > n then xs[|xs| - n..] else xs
  }

  /** Cutting back after every append leaves the same history as cutting back once at the
      end: the session never loses an exchange that the last `n` would keep. */
  lemma KeepLastAppend<T>(xs: seq<T>, x: T, n: nat)
    ensures KeepLast(KeepLast(xs, n) + [x], n) == KeepLast(xs + [x], n)
  {
    var ys := xs + [x];
    if |xs| > n {
      var zs := xs[|xs| - n..] + [x];
      assert zs[|zs| - n..] == ys[|ys| - n..];
    }
  }

  /** The history after a run of exchanges recorded one by one from `h`. */
  function RecordAll(h: seq<Exchange>, es: seq<Exchange>): seq<Exchange>
    decreases |es|
  {
    if es == [] then h else KeepLast(RecordAll(h, es[..|es| - 1]) + [es[|es| - 1]], StoredLimit)
  }

  /** Recording exchanges one at a time keeps exactly the last ten of everything ever
      recorded (when the history starts within the limit). */
  lemma {:induction false} RecordAllKeepsLast(h: seq<Exchange>, es: seq<Exchange>)
    requires |h| <= StoredLimit
    ensures RecordAll(h, es) == KeepLast(h + es, StoredLimit)
    decreases |es|
  {
    if es != [] {
      var pre := es[..|es| - 1];
      var e := es[|es| - 1];
      calc {
        RecordAll(h, es);
        KeepLast(RecordAll(h, pre) + [e], StoredLimit);
        { RecordAllKeepsLast(h, pre); }
        KeepLast(KeepLast(h + pre, StoredLimit) + [e], StoredLimit);
        { KeepLastAppend(h + pre, e, StoredLimit); }
        KeepLast(h + pre + [e], StoredLimit);
        { assert h + pre + [e] == h + es; }
        KeepLast(h + es, StoredLimit);
      }
    }
  }

  /** The session state that holds the history. */
  class ChatSession {
    var history: seq<Exchange>

    predicate Valid()
      reads this
    {
      |history| <= StoredLimit
    }

    /** `st.session_state.chat_history = []` */
    constructor ()
      ensures history == [] && Valid()
    {
      history := [];
    }

    /** The exchanges shown above the form (app.py:192). */
    function DisplayHistory(): (r: seq<Exchange>)
      reads this
      ensures |r| == Min(DisplayLimit, |history|)
      ensures forall k :: 0 <= k < |r| ==> r[k] == history[|history| - |r| + k]
    {
      KeepLast(history, DisplayLimit)
    }

    /** A submitted form (app.py:210-219): an empty question records nothing; otherwise the
        exchange is appended and the history cut back to its last ten. */
    method Submit(question: string, answer: string)
      requires Valid()
      modifies this
      ensures Valid()
      ensures history == if question == [] then old(history)
        else KeepLast(old(history) + [Exchange(question, answer)], StoredLimit)
    {
      if question == [] {
        return;
      }
      history := history + [Exchange(question, answer)];
      if |history| > StoredLimit {
        history := history[|history| - StoredLimit..];
      }
    }
  }

  /** After an exchange is recorded, it is the newest entry of the history, at most ten
      entries remain, and older entries leave from the front only: a full history loses
      exactly its oldest exchange. */
  lemma RecordedExchange(h: seq<Exchange>, e: Exchange)
    requires |h| <= StoredLimit
    ensures var r := KeepLast(h + [e], StoredLimit);
      |r| <= StoredLimit && r[|r| - 1] == e
      && (|h| < StoredLimit ==> r == h + [e])
      && (|h| == StoredLimit ==> r == h[1..] + [e])
  {
    var ys := h + [e];
    if |h| == StoredLimit {
      assert ys[|ys| - StoredLimit..] == h[1..] + [e];
    }
  }
}
