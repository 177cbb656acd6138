/**
 * The cursor emitter the visitor writes through (`utils.catchup`, `utils.move`, `utils.append`
 * and `utils.catchupNewlines` of jstransform, which are not part of this model; their behaviour
 * here is an assumption): a read cursor into the source and an output buffer.
 *
 * - `catchup(end, filter)`: when `end` is behind the cursor nothing happens; otherwise the
 *   source from the cursor to `end` (JavaScript `substring`, so clamped to the source) is passed
 *   through the filter and appended, and the cursor moves to `end`;
 * - `move(to)`: the cursor jumps to `to`, backwards or past the end included;
 * - `append(text)`: `text` is appended, the cursor stays.
 */
module Emit {
  import opened Text

  /** The content transformers passed to `catchup`. */
  datatype Filter = Verbatim | TrimLeftFilter | StripNonParenFilter | StripNonNewlineFilter
  {
    function Apply(s: string): string
    {
      match this
      case Verbatim => s
      case TrimLeftFilter => TrimLeft(s)
      case StripNonParenFilter => StripNonParen(s)
      case StripNonNewlineFilter => StripNonNewline(s)
    }
  }

  function Clamp(x: int, n: nat): (r: nat)
    ensures r <= n
  {
    if x < 0 then 0 else if x > n then n else x
  }

  /** `s.substring(lo, hi)` for `lo <= hi`. */
  function Substring(s: string, lo: int, hi: int): (r: string)
    requires lo <= hi
    ensures 0 <= lo && hi <= |s| ==> r == s[lo..hi]
  {
    s[Clamp(lo, |s|)..Clamp(hi, |s|)]
  }

  /** The emitter's state, `state.g.position` and `state.g.buffer`, and the effect of each call
      on it. */
  datatype Cursor = Cursor(position: int, buffer: string)
  {
    function Catchup(source: string, end: int, filter: Filter): (r: Cursor)
      ensures r.position == if end < position then position else end
    {
      if end < position then this
      else Cursor(end, buffer + filter.Apply(Substring(source, position, end)))
    }

    function Move(to: int): Cursor
    {
      Cursor(to, buffer)
    }

    function Append(text: string): Cursor
    {
      Cursor(position, buffer + text)
    }

    /** An append made only when `cond` holds. */
    function AppendIf(cond: bool, text: string): Cursor
    {
      if cond then Append(text) else this
    }
  }

  /** The mutable emitter of one transform: `state.g.source`, `state.g.position` and
      `state.g.buffer`. */
  class Emitter {
    const source: string
    var position: int
    var buffer: string

    constructor (source: string)
      ensures this.source == source && position == 0 && buffer == ""
    {
      this.source := source;
      position := 0;
      buffer := "";
    }

    function State(): Cursor
      reads this
    {
      Cursor(position, buffer)
    }

    /** `utils.catchup(end, state, filter)`. */
    method Catchup(end: int, filter: Filter)
      modifies this
      ensures State() == old(State()).Catchup(source, end, filter)
    {
      if end >= position {
        buffer := buffer + filter.Apply(Substring(source, position, end));
        position := end;
      }
    }

    /** `utils.catchupNewlines(end, state)`: a catchup that keeps only the `\n` characters. */
    method CatchupNewlines(end: int)
      modifies this
      ensures State() == old(State()).Catchup(source, end, StripNonNewlineFilter)
    {
      Catchup(end, StripNonNewlineFilter);
    }

    /** `utils.move(to, state)`, and a direct write of `state.g.position`. */
    method Move(to: int)
      modifies this
      ensures State() == old(State()).Move(to)
    {
      position := to;
    }

    /** `utils.append(text, state)`, and a direct `state.g.buffer += text`. */
    method Append(text: string)
      modifies this
      ensures State() == old(State()).Append(text)
    {
      buffer := buffer + text;
    }
  }
}
