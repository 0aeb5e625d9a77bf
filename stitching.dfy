/**
 * The stitching count sheet of one date and shift: the tailors loaded for it
 * and the count typed (or prefilled) for each tailor id.
 */
module Stitching {

  type TailorId = string

  /**
   * A stitched count as JavaScript holds it: absent, a number from the server,
   * or the text of the number input.
   */
  datatype Count = Missing | Num(n: int) | Text(s: string)

  /** JavaScript truthiness of a count: false for absent, 0 and "". */
  predicate Truthy(c: Count)
  {
    match c
    case Missing => false
    case Num(n) => n != 0
    case Text(s) => s != ""
  }

  /** `c || 0`: the count itself when truthy, the number 0 otherwise. */
  function OrZero(c: Count): (r: Count)
    ensures Truthy(c) ==> r == c
    ensures !Truthy(c) ==> r == Num(0)
  {
    if Truthy(c) then c else Num(0)
  }

  /** A tailor as the server lists it for a date and shift. */
  datatype Tailor = Tailor(id: TailorId, name: string, imageUrl: string, stitchedCount: Count)

  /** The reply to the load request; RequestFailed is a request that threw. */
  datatype TailorReply = Tailors(tailors: seq<Tailor>) | RequestFailed

  /** One record of the bulk payload. */
  datatype CountRecord = CountRecord(tailorId: TailorId, stitchedCount: Count)

  /** The body posted to save one tailor's count. */
  datatype SinglePayload =
    SinglePayload(date: string, shift: string, tailorId: TailorId, stitchedCount: Count, isUpdate: bool)

  /** The body posted to save every loaded tailor's count. */
  datatype BulkPayload = BulkPayload(date: string, shift: string, records: seq<CountRecord>)

  ghost predicate DistinctIds(tailors: seq<Tailor>)
  {
    forall i, j :: 0 <= i < j < |tailors| ==> tailors[i].id != tailors[j].id
  }

  /** The ids of the tailors that came with a truthy count. */
  function CountedIds(tailors: seq<Tailor>): set<TailorId>
  {
    set t | t in tailors && Truthy(t.stitchedCount) :: t.id
  }

  /** `counts[id]`, which is absent for an id never filled in. */
  function CountOf(counts: map<TailorId, Count>, id: TailorId): Count
  {
    if id in counts then counts[id] else Missing
  }

  /**
   * The map built by writing each tailor's count under its id, in order,
   * skipping tailors whose count is falsy.
   */
  function Prefilled(tailors: seq<Tailor>): map<TailorId, Count>
  {
    if tailors == [] then map[]
    else
      var last := tailors[|tailors| - 1];
      var init := Prefilled(tailors[..|tailors| - 1]);
      if Truthy(last.stitchedCount) then init[last.id := last.stitchedCount] else init
  }

  /** Whether tailor `i` is the last tailor with a truthy count for its id. */
  ghost predicate LastCountedForId(tailors: seq<Tailor>, i: int)
    requires 0 <= i < |tailors|
  {
    forall j :: i < j < |tailors| && Truthy(tailors[j].stitchedCount) ==> tailors[j].id != tailors[i].id
  }

  /**
   * The prefilled map holds exactly the tailors with a truthy count, each
   * under its id with its (last) count; every value it holds is truthy.
   */
  lemma {:induction false} PrefilledKeepsTruthyCounts(tailors: seq<Tailor>)
    ensures Prefilled(tailors).Keys == CountedIds(tailors)
    ensures forall id :: id in Prefilled(tailors) ==> Truthy(Prefilled(tailors)[id])
    ensures forall i :: 0 <= i < |tailors| && Truthy(tailors[i].stitchedCount) && LastCountedForId(tailors, i) ==>
      tailors[i].id in Prefilled(tailors) && Prefilled(tailors)[tailors[i].id] == tailors[i].stitchedCount
  {
    if tailors != [] {
      var n := |tailors| - 1;
      var init := tailors[..n];
      PrefilledKeepsTruthyCounts(init);
      assert tailors == init + [tailors[n]];
      if Truthy(tailors[n].stitchedCount) {
        assert CountedIds(tailors) == CountedIds(init) + {tailors[n].id};
      } else {
        assert CountedIds(tailors) == CountedIds(init);
      }
      forall i | 0 <= i < |tailors| && Truthy(tailors[i].stitchedCount) && LastCountedForId(tailors, i)
        ensures tailors[i].id in Prefilled(tailors)
        ensures Prefilled(tailors)[tailors[i].id] == tailors[i].stitchedCount
      {
        if i < n {
          assert LastCountedForId(init, i);
          assert init[i] == tailors[i];
        }
      }
    }
  }

  /** The body of a single save: the selected count, falsy ones sent as 0. */
  function SingleSave(date: string, shift: string, counts: map<TailorId, Count>,
                      tailorId: TailorId, isUpdate: bool): (p: SinglePayload)
    ensures p.date == date && p.shift == shift && p.tailorId == tailorId && p.isUpdate == isUpdate
    ensures Truthy(p.stitchedCount) ==> tailorId in counts && p.stitchedCount == counts[tailorId]
    ensures !Truthy(CountOf(counts, tailorId)) ==> p.stitchedCount == Num(0)
    ensures p.stitchedCount == OrZero(CountOf(counts, tailorId))
  {
    SinglePayload(date, shift, tailorId, OrZero(CountOf(counts, tailorId)), isUpdate)
  }

  /** The records of a bulk save: one per loaded tailor, in order. */
  function BulkRecords(tailors: seq<Tailor>, counts: map<TailorId, Count>): (rs: seq<CountRecord>)
    ensures |rs| == |tailors|
    ensures forall i :: 0 <= i < |tailors| ==>
      rs[i] == CountRecord(tailors[i].id, OrZero(CountOf(counts, tailors[i].id)))
  {
    if tailors == [] then []
    else
      var last := tailors[|tailors| - 1];
      BulkRecords(tailors[..|tailors| - 1], counts) + [CountRecord(last.id, OrZero(CountOf(counts, last.id)))]
  }

  /** The bulk save sends, for each tailor, what a single save of it would send. */
  lemma BulkAgreesWithSingleSave(date: string, shift: string, tailors: seq<Tailor>,
                                 counts: map<TailorId, Count>, isUpdate: bool)
    ensures forall i :: 0 <= i < |tailors| ==>
      BulkRecords(tailors, counts)[i].stitchedCount
        == SingleSave(date, shift, counts, tailors[i].id, isUpdate).stitchedCount
  {
  }

  /**
   * Round trip: saving right after a load sends back every loaded count, a
   * falsy one as 0, provided each tailor appears once.
   */
  lemma {:induction false} LoadThenBulkSaveResendsCounts(tailors: seq<Tailor>)
    requires DistinctIds(tailors)
    ensures forall i :: 0 <= i < |tailors| ==>
      BulkRecords(tailors, Prefilled(tailors))[i] == CountRecord(tailors[i].id, OrZero(tailors[i].stitchedCount))
  {
    PrefilledKeepsTruthyCounts(tailors);
  }

  /**
   * Typing into one tailor's input changes what is saved for that tailor
   * only: its text, or 0 when the input is cleared.
   */
  lemma CountChangeIsLocal(date: string, shift: string, counts: map<TailorId, Count>,
                           id: TailorId, value: string, other: TailorId, isUpdate: bool)
    ensures SingleSave(date, shift, counts[id := Text(value)], id, isUpdate).stitchedCount
      == (if value == "" then Num(0) else Text(value))
    ensures other != id ==>
      SingleSave(date, shift, counts[id := Text(value)], other, isUpdate)
        == SingleSave(date, shift, counts, other, isUpdate)
  {
  }

  /** The stitching page's state. */
  class StitchingSheet {
    var date: string
    var shift: string
    var tailors: seq<Tailor>
    var counts: map<TailorId, Count>

    constructor ()
      ensures date == "" && shift == "" && tailors == [] && counts == map[]
    {
      date, shift, tailors, counts := "", "", [], map[];
    }

    method SetDate(d: string)
      modifies this
      ensures date == d
      ensures shift == old(shift) && tailors == old(tailors) && counts == old(counts)
    {
      date := d;
    }

    method SetShift(s: string)
      modifies this
      ensures shift == s
      ensures date == old(date) && tailors == old(tailors) && counts == old(counts)
    {
      shift := s;
    }

    /**
     * Handles the reply to a load. Refused, with nothing changed, while the
     * date or the shift is unselected; otherwise the tailor list and the whole
     * count map are replaced.
     */
    method LoadTailors(reply: TailorReply) returns (refused: bool)
      modifies this
      ensures refused <==> date == "" || shift == ""
      ensures date == old(date) && shift == old(shift)
      ensures refused || reply.RequestFailed? ==> tailors == old(tailors) && counts == old(counts)
      ensures !refused && reply.Tailors? ==> tailors == reply.tailors && counts == Prefilled(reply.tailors)
    {
      if date == "" || shift == "" {
        return true;
      }
      refused := false;
      match reply {
        case Tailors(loaded) =>
          tailors := loaded;
          var prefilled: map<TailorId, Count> := map[];
          var i := 0;
          while i < |loaded|
            invariant 0 <= i <= |loaded|
            invariant prefilled == Prefilled(loaded[..i])
          {
            assert loaded[..i + 1][..i] == loaded[..i];
            if Truthy(loaded[i].stitchedCount) {
              prefilled := prefilled[loaded[i].id := loaded[i].stitchedCount];
            }
            i := i + 1;
          }
          assert loaded[..i] == loaded;
          counts := prefilled;
        case RequestFailed =>
      }
    }

    /** Typing `value` into tailor `id`'s count input. */
    method HandleCountChange(id: TailorId, value: string)
      modifies this
      ensures counts == old(counts)[id := Text(value)]
      ensures date == old(date) && shift == old(shift) && tailors == old(tailors)
    {
      counts := counts[id := Text(value)];
    }

    /** The body the "Update" button posts for one tailor; the post is I/O. */
    method SaveCount(tailorId: TailorId, isUpdate: bool) returns (payload: SinglePayload)
      ensures payload == SingleSave(date, shift, counts, tailorId, isUpdate)
    {
      payload := SingleSave(date, shift, counts, tailorId, isUpdate);
    }

    /** The body the "Save" button posts for every loaded tailor; the post is I/O. */
    method BulkSave() returns (payload: BulkPayload)
      ensures payload.date == date && payload.shift == shift
      ensures |payload.records| == |tailors|
      ensures forall i :: 0 <= i < |tailors| ==>
        payload.records[i].tailorId == tailors[i].id &&
        payload.records[i].stitchedCount == OrZero(CountOf(counts, tailors[i].id))
    {
      payload := BulkPayload(date, shift, BulkRecords(tailors, counts));
    }
  }
}
