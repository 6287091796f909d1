/** The display arithmetic of `WarningDialog` (src/components/WarningDialog.tsx),
    computed from the props `warningIndex` and `totalWarnings` that the
    session passes as its `warningIndex` and `shuffledWarnings.length`. */
module WarningDialog {
  import GameSession

  /** `icons.length`: the dialog cycles through five icons. */
  const IconCount: nat := 5

  /** `warningIndex % icons.length`: which icon the dialog shows. */
  function IconIndex(warningIndex: nat): (k: nat)
    ensures k < IconCount
    ensures warningIndex < IconCount ==> k == warningIndex
  {
    warningIndex % IconCount
  }

  /** The icon lookup is always in bounds, the icons repeat every five
      warnings, and two consecutive warnings never show the same icon. */
  lemma IconsCycle(warningIndex: nat)
    ensures IconIndex(warningIndex) < IconCount
    ensures IconIndex(warningIndex + IconCount) == IconIndex(warningIndex)
    ensures IconIndex(warningIndex + 1) == (IconIndex(warningIndex) + 1) % IconCount
    ensures IconIndex(warningIndex + 1) != IconIndex(warningIndex)
  {
    var q := warningIndex / IconCount;
    var r := warningIndex % IconCount;
    assert warningIndex + IconCount == (q + 1) * IconCount + r;
    if r + 1 < IconCount {
      assert warningIndex + 1 == q * IconCount + (r + 1);
    } else {
      assert warningIndex + 1 == (q + 1) * IconCount + 0;
    }
  }

  /** The number in "Avertissement n / total". */
  function Counter(warningIndex: nat): nat {
    warningIndex + 1
  }

  /** For an index inside the set the counter runs from 1 to the set's size,
      reaching the size exactly on the last warning. */
  lemma CounterInRange(warningIndex: nat, totalWarnings: nat)
    requires warningIndex < totalWarnings
    ensures 1 <= Counter(warningIndex) <= totalWarnings
    ensures Counter(warningIndex) == totalWarnings <==> warningIndex == totalWarnings - 1
  {
  }

  /** The two captions of the confirm button: "Continuer" and
      "LANCER LA ROUE". */
  datatype ConfirmLabel = Continue | LaunchWheel

  /** The caption choice on `warningIndex < totalWarnings - 1`. */
  function Label(warningIndex: nat, totalWarnings: nat): ConfirmLabel {
    if warningIndex < totalWarnings - 1 then Continue else LaunchWheel
  }

  /** The dialog announces the wheel exactly when it shows the last warning,
      and exactly when confirming it takes the session to the wheel; the
      "Continuer" caption is shown exactly when confirming moves on to the
      next warning. */
  lemma LabelMatchesConfirm(s: GameSession.State)
    requires s.phase == GameSession.Warnings && s.warningIndex < |s.shuffledWarnings|
    ensures Label(s.warningIndex, |s.shuffledWarnings|) == LaunchWheel <==>
      s.warningIndex == |s.shuffledWarnings| - 1
    ensures Label(s.warningIndex, |s.shuffledWarnings|) == LaunchWheel <==>
      GameSession.AfterConfirm(s).phase == GameSession.Wheel
    ensures Label(s.warningIndex, |s.shuffledWarnings|) == Continue <==>
      GameSession.AfterConfirm(s) == s.(warningIndex := s.warningIndex + 1)
  {
  }

  /** The width, in percent, of the progress bar:
      `((warningIndex + 1) / totalWarnings) * 100`. */
  function ProgressWidth(warningIndex: nat, totalWarnings: nat): real
    requires totalWarnings > 0
  {
    (warningIndex + 1) as real / totalWarnings as real * 100.0
  }

  /** The width scaled back by the set's size is 100 times the counter. */
  lemma ProgressWidthScaled(warningIndex: nat, totalWarnings: nat)
    requires totalWarnings > 0
    ensures ProgressWidth(warningIndex, totalWarnings) * totalWarnings as real == 100.0 * Counter(warningIndex) as real
  {
    var n := totalWarnings as real;
    var c := (warningIndex + 1) as real;
    assert c / n * n == c;
    assert c / n * 100.0 * n == c / n * n * 100.0;
  }

  /** Inside the set the bar is never empty and never overfull, it is full
      exactly on the last warning, and it grows with every warning. */
  lemma ProgressWidthBounds(warningIndex: nat, totalWarnings: nat)
    requires warningIndex < totalWarnings
    ensures 0.0 < ProgressWidth(warningIndex, totalWarnings) <= 100.0
    ensures ProgressWidth(warningIndex, totalWarnings) == 100.0 <==> warningIndex == totalWarnings - 1
    ensures warningIndex + 1 < totalWarnings ==>
      ProgressWidth(warningIndex, totalWarnings) < ProgressWidth(warningIndex + 1, totalWarnings)
  {
    var n := totalWarnings as real;
    ProgressWidthScaled(warningIndex, totalWarnings);
    ProgressWidthScaled(warningIndex + 1, totalWarnings);
    var w := ProgressWidth(warningIndex, totalWarnings);
    var w' := ProgressWidth(warningIndex + 1, totalWarnings);
    ScaleOrder(0.0, w, n);
    ScaleOrder(w, 100.0, n);
    ScaleOrder(w, w', n);
  }

  /** Multiplying by a positive real keeps order and equality both ways. */
  lemma ScaleOrder(x: real, y: real, n: real)
    requires n > 0.0
    ensures x < y <==> x * n < y * n
    ensures x == y <==> x * n == y * n
  {
    if x < y {
      assert x * n < y * n;
    } else if y < x {
      assert y * n < x * n;
    }
  }
}
