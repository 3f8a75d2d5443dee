/**
 * The paid lesson catalogue: three configured entries, of which those whose
 * file id is truthy (set and non-empty) are kept, in their original order.
 */
module Catalogue {
  import opened Wrappers

  /** One configured entry; the file id comes from the environment and may be unset. */
  datatype Slot = Slot(fileId: Option<string>, caption: string)

  /** An entry that survived the filter, so its file id is a non-empty string. */
  datatype Lesson = Lesson(fileId: string, caption: string)

  const Lesson1Caption: string := "🎥 Урок 1: Подготовка ногтевой пластины"
  const Lesson2Caption: string := "🎥 Урок 2: Нанесение базы и цвета"
  const Lesson3Caption: string := "🎥 Урок 3: Финишное покрытие и уход"

  /** JavaScript truthiness of an environment value: `undefined` and `''` are falsy. */
  predicate Truthy(v: Option<string>) {
    v.Some? && v.value != ""
  }

  /** `slots.filter(video => video.fileId)`. */
  function Filter(slots: seq<Slot>): (lessons: seq<Lesson>)
    ensures |lessons| <= |slots|
  {
    if slots == [] then []
    else
      var head := if Truthy(slots[0].fileId) then [Lesson(slots[0].fileId.value, slots[0].caption)] else [];
      head + Filter(slots[1..])
  }

  /** The three configured entries, before filtering. */
  function Configured(video1: Option<string>, video2: Option<string>, video3: Option<string>): (slots: seq<Slot>) {
    [Slot(video1, Lesson1Caption), Slot(video2, Lesson2Caption), Slot(video3, Lesson3Caption)]
  }

  /** `PAID_VIDEOS`. */
  function PaidVideos(video1: Option<string>, video2: Option<string>, video3: Option<string>): (lessons: seq<Lesson>)
    ensures |lessons| <= 3
  {
    Filter(Configured(video1, video2, video3))
  }

  /** Filtering a concatenation filters each part in turn: the order of the entries is kept. */
  lemma {:induction false} FilterAppend(a: seq<Slot>, b: seq<Slot>)
    ensures Filter(a + b) == Filter(a) + Filter(b)
    decreases |a|
  {
    if a != [] {
      FilterAppend(a[1..], b);
      assert (a + b)[0] == a[0];
      assert (a + b)[1..] == a[1..] + b;
      var head := if Truthy(a[0].fileId) then [Lesson(a[0].fileId.value, a[0].caption)] else [];
      assert Filter(a + b) == head + (Filter(a[1..]) + Filter(b));
      assert Filter(a) == head + Filter(a[1..]);
    } else {
      assert a + b == b;
    }
  }

  /** A lesson is kept exactly when some entry carries it with a non-empty file id. */
  lemma {:induction false} FilterMembership(slots: seq<Slot>, fileId: string, caption: string)
    ensures Lesson(fileId, caption) in Filter(slots) <==> fileId != "" && Slot(Some(fileId), caption) in slots
    decreases |slots|
  {
    if slots != [] {
      FilterMembership(slots[1..], fileId, caption);
      assert slots == [slots[0]] + slots[1..];
    }
  }

  /** When every entry is set, nothing is dropped. */
  lemma {:induction false} FilterKeepsSetEntries(slots: seq<Slot>)
    requires forall i :: 0 <= i < |slots| ==> Truthy(slots[i].fileId)
    ensures |Filter(slots)| == |slots|
    ensures forall i :: 0 <= i < |slots| ==>
              slots[i].fileId.Some? && Filter(slots)[i] == Lesson(slots[i].fileId.value, slots[i].caption)
    decreases |slots|
  {
    if slots != [] {
      FilterKeepsSetEntries(slots[1..]);
    }
  }

  /** `PAID_VIDEOS` is the set entries among the three, in configuration order. */
  lemma PaidVideosInOrder(video1: Option<string>, video2: Option<string>, video3: Option<string>)
    ensures PaidVideos(video1, video2, video3) ==
              (if Truthy(video1) then [Lesson(video1.value, Lesson1Caption)] else []) +
              (if Truthy(video2) then [Lesson(video2.value, Lesson2Caption)] else []) +
              (if Truthy(video3) then [Lesson(video3.value, Lesson3Caption)] else [])
  {
    var slots := Configured(video1, video2, video3);
    FilterAppend([slots[0]], [slots[1], slots[2]]);
    FilterAppend([slots[1]], [slots[2]]);
    assert slots == [slots[0]] + [slots[1], slots[2]];
    assert [slots[1], slots[2]] == [slots[1]] + [slots[2]];
    assert [slots[2]][1..] == [];
  }

  /** Every catalogue entry has a non-empty file id and one of the three lesson captions. */
  predicate WellFormed(lessons: seq<Lesson>) {
    |lessons| <= 3 &&
    forall i :: 0 <= i < |lessons| ==>
      lessons[i].fileId != "" &&
      (lessons[i].caption == Lesson1Caption || lessons[i].caption == Lesson2Caption || lessons[i].caption == Lesson3Caption)
  }

  lemma PaidVideosWellFormed(video1: Option<string>, video2: Option<string>, video3: Option<string>)
    ensures WellFormed(PaidVideos(video1, video2, video3))
  {
    PaidVideosInOrder(video1, video2, video3);
  }
}
