/** The supplement checklist of src/components/SupplementTracker.tsx: a list
    of recommended supplements whose "taken today" boxes the user ticks, the
    progress counts shown above it, and the category badges. */
module SupplementTracking {
  import opened Sequences

  /** The fields of a supplement that the tracker shows or changes. */
  datatype Supplement = Supplement(
    name: string,
    description: string,
    dosage: string,
    timing: string,
    taken: bool,
    category: string)

  /** The six categories the badges know. */
  const Categories: seq<string> := ["vitamin", "digestive", "joint", "extract", "sleep", "pre-workout"]

  // ---------------------------------------------------------------------
  // Toggling

  /** The `map` of `toggleSupplement`: the entry at `index` with `taken`
      flipped, every other entry as it was. */
  function Toggled(supplements: seq<Supplement>, index: int): (r: seq<Supplement>)
    ensures |r| == |supplements|
  {
    seq(|supplements|, i requires 0 <= i < |supplements| =>
      if i == index then supplements[i].(taken := !supplements[i].taken) else supplements[i])
  }

  /** Toggling changes only the `taken` flag of the entry at the index, and
      nothing at all when the index is out of range. */
  lemma ToggleChangesOnlyIndex(supplements: seq<Supplement>, index: int)
    ensures forall i :: 0 <= i < |supplements| && i != index ==> Toggled(supplements, index)[i] == supplements[i]
    ensures 0 <= index < |supplements| ==>
      Toggled(supplements, index)[index].taken == !supplements[index].taken &&
      Toggled(supplements, index)[index].(taken := supplements[index].taken) == supplements[index]
    ensures !(0 <= index < |supplements|) ==> Toggled(supplements, index) == supplements
  {
  }

  /** Toggling the same entry twice restores the list. */
  lemma ToggleTwice(supplements: seq<Supplement>, index: int)
    ensures Toggled(Toggled(supplements, index), index) == supplements
  {
  }

  /** The toast shown after a toggle, chosen by the entry's state before it. */
  function ToastTitle(before: Supplement): string {
    if before.taken then "Kiegészítő eltávolítva" else "Kiegészítő felvéve"
  }

  function ToastDescription(before: Supplement): string {
    before.name + " " + (if before.taken then "eltávolítva a mai listából" else "hozzáadva a mai listához") + "."
  }

  /** The toast says "removed" exactly when the toggle cleared the flag. */
  lemma ToastMatchesNewState(supplements: seq<Supplement>, index: int)
    requires 0 <= index < |supplements|
    ensures ToastTitle(supplements[index]) == "Kiegészítő eltávolítva" <==> !Toggled(supplements, index)[index].taken
    ensures ToastTitle(supplements[index]) == "Kiegészítő felvéve" <==> Toggled(supplements, index)[index].taken
  {
  }

  // ---------------------------------------------------------------------
  // Counts and progress

  function IsTaken(): Supplement -> bool {
    (s: Supplement) => s.taken
  }

  /** `supplements.filter(s => s.taken).length`. */
  function TakenToday(supplements: seq<Supplement>): (n: nat)
    ensures n <= |supplements|
    ensures n == |supplements| <==> forall s :: s in supplements ==> s.taken
    ensures n == 0 <==> forall s :: s in supplements ==> !s.taken
  {
    var taken := Filter(supplements, IsTaken());
    assert taken != [] ==> taken[0] in taken;
    |taken|
  }

  /** A toggle moves the taken count by exactly one, down when the entry
      was taken and up when it was not. */
  lemma ToggleChangesTakenCountByOne(supplements: seq<Supplement>, index: int)
    requires 0 <= index < |supplements|
    ensures TakenToday(Toggled(supplements, index)) ==
      if supplements[index].taken then TakenToday(supplements) - 1 else TakenToday(supplements) + 1
  {
    var before, after := supplements[..index], supplements[index + 1..];
    var s := supplements[index];
    var t := s.(taken := !s.taken);
    assert supplements == before + [s] + after;
    assert Toggled(supplements, index) == before + [t] + after;
    FilterAppend(before + [s], after, IsTaken());
    FilterAppend(before, [s], IsTaken());
    FilterAppend(before + [t], after, IsTaken());
    FilterAppend(before, [t], IsTaken());
    FilterSingleton(s, IsTaken());
    FilterSingleton(t, IsTaken());
  }

  /** The width of the progress bar, in percent: 0 for an empty list,
      otherwise the taken share. */
  function Progress(takenToday: nat, totalSupplements: nat): real {
    if totalSupplements > 0 then Share(takenToday, totalSupplements) * 100.0 else 0.0
  }

  function Share(part: nat, whole: nat): real
    requires whole > 0
  {
    part as real / whole as real
  }

  /** The bar is empty for an empty list and otherwise between 0 and 100
      percent: empty when nothing is taken, full when everything is. */
  lemma ProgressBounds(supplements: seq<Supplement>)
    ensures |supplements| == 0 ==> Progress(TakenToday(supplements), |supplements|) == 0.0
    ensures 0.0 <= Progress(TakenToday(supplements), |supplements|) <= 100.0
    ensures Progress(TakenToday(supplements), |supplements|) == 100.0 <==>
      |supplements| > 0 && forall s :: s in supplements ==> s.taken
    ensures Progress(TakenToday(supplements), |supplements|) == 0.0 <==>
      forall s :: s in supplements ==> !s.taken
  {
    var taken, total := TakenToday(supplements), |supplements|;
    if total > 0 {
      ShareBounds(taken, total);
    }
  }

  lemma ShareBounds(part: nat, whole: nat)
    requires 0 < whole && part <= whole
    ensures 0.0 <= Share(part, whole) <= 1.0
    ensures Share(part, whole) == 1.0 <==> part == whole
    ensures Share(part, whole) == 0.0 <==> part == 0
  {
    var p, w := part as real, whole as real;
    assert Share(part, whole) * w == p;
    if Share(part, whole) == 1.0 {
      assert p == 1.0 * w;
    }
  }

  // ---------------------------------------------------------------------
  // Category badges

  /** `getCategoryColor`. */
  function CategoryColor(category: string): (color: string)
    ensures color == "bg-gray-500" <==> category !in Categories
  {
    if category == "vitamin" then "bg-blue-500"
    else if category == "digestive" then "bg-green-500"
    else if category == "joint" then "bg-purple-500"
    else if category == "extract" then "bg-orange-500"
    else if category == "sleep" then "bg-indigo-500"
    else if category == "pre-workout" then "bg-red-500"
    else "bg-gray-500"
  }

  /** `getCategoryText`. */
  function CategoryText(category: string): (text: string)
    ensures text == "Egyéb" <==> category !in Categories
  {
    if category == "vitamin" then "Vitamin"
    else if category == "digestive" then "Emésztés"
    else if category == "joint" then "Ízület"
    else if category == "extract" then "Kivonat"
    else if category == "sleep" then "Alvás"
    else if category == "pre-workout" then "Edzés előtti"
    else "Egyéb"
  }

  /** Each of the six categories gets a label and a colour of its own: no
      two of them share either. */
  lemma CategoriesAreDistinguished(c: string, d: string)
    requires c in Categories && d in Categories && c != d
    ensures CategoryText(c) != CategoryText(d)
    ensures CategoryColor(c) != CategoryColor(d)
  {
  }

  // ---------------------------------------------------------------------
  // The component

  class SupplementTracker {
    var supplements: seq<Supplement>

    /** The list starts empty, before the supplements are loaded. */
    constructor ()
      ensures supplements == []
    {
      supplements := [];
    }

    /** The effect's `setSupplements(supplementsData)` once loading is done;
        the data itself comes from the sheets service. */
    method Loaded(supplementsData: seq<Supplement>)
      modifies this
      ensures supplements == supplementsData
    {
      supplements := supplementsData;
    }

    /** `toggleSupplement`: flips the entry and returns the toast, which is
        worded from the entry as it was before. Reading `.taken` of a
        missing entry throws, so the index must be in range. */
    method Toggle(index: int) returns (title: string, description: string)
      requires 0 <= index < |supplements|
      modifies this
      ensures supplements == Toggled(old(supplements), index)
      ensures title == ToastTitle(old(supplements)[index])
      ensures description == ToastDescription(old(supplements)[index])
    {
      var supplement := supplements[index];
      supplements := Toggled(supplements, index);
      title := ToastTitle(supplement);
      description := ToastDescription(supplement);
    }
  }
}
