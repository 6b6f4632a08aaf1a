/**
 * The session snapshot shared by the server (which accretes it key by key)
 * and the browser (which restores the page from it).  Every top-level key is
 * optional; the records under the keys have the shapes the server writes.
 */
module Snapshot {
  import opened Wrappers
  import opened Data

  /** `preview.info` of an upload; only the column names are read back. */
  datatype Info = Info(columnNames: seq<string>)

  /** `preview`: the first rows of the upload (None when missing or null) and its summary. */
  datatype Preview = Preview(head: Option<seq<Record>>, info: Option<Info>)

  /** `selection`: the chosen target ("" when missing or null) and features. */
  datatype Selection = Selection(target: string, features: seq<string>)

  /** `time`: which column holds the time axis and how to read it ("" when absent). */
  datatype TimeMeta = TimeMeta(column: string, kind: string, format: string)

  /** `preprocess.curve`: either list may be missing. */
  datatype Curve = Curve(x: Option<seq<int>>, y: Option<seq<int>>)

  /** `preprocess`: the selected segment, the change points and the duration curve. */
  datatype Preprocessed = Preprocessed(segment: Option<Sample>, bounds: Option<seq<int>>, curve: Curve)

  /** `train.cfg`: the parameters the model was trained with. */
  datatype TrainCfg = TrainCfg(model: string, window: int, horizon: int, epochs: int)

  /** `train`: `loss` is None when the key is missing. */
  datatype Trained = Trained(loss: Option<real>, prediction: seq<real>, cfg: Option<TrainCfg>)

  datatype Snap = Snap(
    preview: Option<Preview>,
    selection: Option<Selection>,
    sample: Option<Sample>,
    time: Option<TimeMeta>,
    preprocess: Option<Preprocessed>,
    train: Option<Trained>)

  /** `{}` */
  const Empty: Snap := Snap(None, None, None, None, None, None)

  datatype Key = PreviewKey | SelectionKey | SampleKey | TimeKey | PreprocessKey | TrainKey

  /** Key k is present in s. */
  predicate Has(s: Snap, k: Key) {
    match k
    case PreviewKey => s.preview.Some?
    case SelectionKey => s.selection.Some?
    case SampleKey => s.sample.Some?
    case TimeKey => s.time.Some?
    case PreprocessKey => s.preprocess.Some?
    case TrainKey => s.train.Some?
  }

  /** The keys present in a snapshot. */
  function Keys(s: Snap): set<Key> {
    set k: Key | Has(s, k)
  }

  /** a and b hold the same value (or both nothing) under key k. */
  predicate SameAt(a: Snap, b: Snap, k: Key) {
    match k
    case PreviewKey => a.preview == b.preview
    case SelectionKey => a.selection == b.selection
    case SampleKey => a.sample == b.sample
    case TimeKey => a.time == b.time
    case PreprocessKey => a.preprocess == b.preprocess
    case TrainKey => a.train == b.train
  }

  function Pick<T>(base: Option<T>, over: Option<T>): Option<T> {
    if over.Some? then over else base
  }

  /**
   * Shallow merge, as `Object.assign({}, base, partial)` and Python's
   * `dict.update` compute it: the keys of `partial` replace those of `base`,
   * the keys `partial` lacks are kept.
   */
  function Merge(base: Snap, partial: Snap): (m: Snap)
    ensures Keys(m) == Keys(base) + Keys(partial)
    ensures forall k :: k in Keys(partial) ==> SameAt(m, partial, k)
    ensures forall k :: k !in Keys(partial) ==> SameAt(m, base, k)
  {
    Snap(Pick(base.preview, partial.preview), Pick(base.selection, partial.selection),
         Pick(base.sample, partial.sample), Pick(base.time, partial.time),
         Pick(base.preprocess, partial.preprocess), Pick(base.train, partial.train))
  }

  /** Two snapshots that agree on every key are the same snapshot. */
  lemma Extensional(a: Snap, b: Snap)
    requires forall k :: SameAt(a, b, k)
    ensures a == b
  {
    assert SameAt(a, b, PreviewKey) && SameAt(a, b, SelectionKey) && SameAt(a, b, SampleKey);
    assert SameAt(a, b, TimeKey) && SameAt(a, b, PreprocessKey) && SameAt(a, b, TrainKey);
  }

  /** `{}` is a unit of the merge on both sides. */
  lemma {:induction false} MergeEmpty(s: Snap)
    ensures Merge(s, Empty) == s && Merge(Empty, s) == s
  {
    forall k ensures SameAt(Merge(s, Empty), s, k) && SameAt(Merge(Empty, s), s, k) {
      assert k !in Keys(Empty);
    }
    Extensional(Merge(s, Empty), s);
    Extensional(Merge(Empty, s), s);
  }

  /** Merging a snapshot into itself, or merging the same partial twice, changes nothing. */
  lemma {:induction false} MergeIdempotent(s: Snap, p: Snap)
    ensures Merge(s, s) == s
    ensures Merge(Merge(s, p), p) == Merge(s, p)
  {
    forall k ensures SameAt(Merge(s, s), s, k) && SameAt(Merge(Merge(s, p), p), Merge(s, p), k) {
      if k in Keys(p) {
        assert SameAt(Merge(s, p), p, k);
      }
    }
    Extensional(Merge(s, s), s);
    Extensional(Merge(Merge(s, p), p), Merge(s, p));
  }

  /** Successive partial updates compose into one: merging is associative. */
  lemma {:induction false} MergeAssociative(a: Snap, b: Snap, c: Snap)
    ensures Merge(Merge(a, b), c) == Merge(a, Merge(b, c))
  {
    forall k ensures SameAt(Merge(Merge(a, b), c), Merge(a, Merge(b, c)), k) {
      if k in Keys(c) {
        assert SameAt(Merge(b, c), c, k);
      } else if k in Keys(b) {
        assert SameAt(Merge(a, b), b, k) && SameAt(Merge(b, c), b, k);
      } else {
        assert SameAt(Merge(a, b), a, k) && SameAt(Merge(b, c), b, k);
      }
    }
    Extensional(Merge(Merge(a, b), c), Merge(a, Merge(b, c)));
  }

  /** Partials with disjoint keys may be applied in either order. */
  lemma {:induction false} MergeDisjoint(s: Snap, p: Snap, q: Snap)
    requires Keys(p) !! Keys(q)
    ensures Merge(Merge(s, p), q) == Merge(Merge(s, q), p)
  {
    forall k ensures SameAt(Merge(Merge(s, p), q), Merge(Merge(s, q), p), k) {
      if k in Keys(q) {
        assert k !in Keys(p);
        assert SameAt(Merge(s, q), q, k);
      } else if k in Keys(p) {
        assert SameAt(Merge(s, p), p, k);
      } else {
        assert SameAt(Merge(s, p), s, k) && SameAt(Merge(s, q), s, k);
      }
    }
    Extensional(Merge(Merge(s, p), q), Merge(Merge(s, q), p));
  }

  /** The text of the `#snapshot-data` element the server renders into the page. */
  datatype Embedded =
    | NoElement          // the element is missing
    | Blank              // its text is empty, which is read as `null`
    | Malformed          // its text is not JSON
    | NullLiteral        // its text is `null`
    | Document(snap: Snap)

  /** The snapshot read from the page: null for a missing element, empty text, bad JSON or `null`. */
  function GetSnapshot(e: Embedded): (r: Option<Snap>)
    ensures r.Some? <==> e.Document?
    ensures r.Some? ==> r.value == e.snap
  {
    match e
    case Document(s) => Some(s)
    case _ => None
  }
}
