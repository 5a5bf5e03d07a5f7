# Workout calculator model

A Dafny model of `homework.py`, a small fitness-tracker calculator. A workout
is one of three kinds, Running, SportsWalking or Swimming. Each kind holds the
raw readings: the number of steps or strokes, the duration in hours and the
weight in kg. SportsWalking adds the height. Swimming adds the pool length and
the number of pool lengths swum. From these readings a workout computes:

- its distance in km, as steps times step length. The step length is 0.65 m,
  and Swimming overrides it with 1.38 m;
- its mean speed in km/h, as distance over duration. Swimming overrides this
  with pool length times pool count over duration;
- its spent kilocalories, with one formula per kind.

A summary record (`InfoMessage`) snapshots the kind name, the duration and
the three computed quantities. A dispatcher (`read_package`) builds a workout
from a kind code (`SWM`, `RUN`, `WLK`) and a positional list of readings.

Everything lives in one module, `Homework` (`homework.dfy`). The source is
pure: fields are set once at construction and never reassigned. So the
workout kinds are one datatype with three constructors, and every getter is a
function that matches on the kind. Numbers are exact `real`s. Python's float
floor division `//` is `FloorDiv`, the floor of the real quotient (toward
minus infinity, as in Python). A division by zero in the source (a zero
duration, or a zero height in the walking formula) is an uncaught crash, so
those functions require a non-zero divisor.

The source does not check that the duration or the weight is positive, and
neither does the model.

## Model

| member | source | states |
|---|---|---|
| Homework.LenStep | homework.py:100-102 | one step is 0.65 m for Running and SportsWalking, while Swimming resolves it to its own 1.38 m; always positive |
| Homework.Distance | homework.py:36-38 | distance in km times 1000 equals steps times step length; it is non-negative when the step count is |
| Homework.DistancePerStep | homework.py:23-24 | distance is action * 0.00065 km for Running/SportsWalking and action * 0.00138 km for Swimming, which inherits the base formula |
| Homework.PoolDistance | homework.py:116-119 | swum distance in km times 1000 equals pool length times pool count |
| Homework.MeanSpeed | homework.py:40-42 | for a non-zero duration, speed times duration is the step distance (Running, SportsWalking) or the pool distance (Swimming) |
| Homework.SwimmingIgnoresAction | homework.py:116-126 | two Swimming records that differ only in stroke count have equal mean speed and equal calories |
| Homework.FloorDiv | homework.py:91-93 | Python float `//`: the result is a whole number q with q*y <= x < q*y + y for y > 0 (mirrored for y < 0) |
| Homework.WalkingSpeedTerm | homework.py:91-93 | the squared mean speed floor-divided by the height is a whole number |
| Homework.KindName | homework.py:51 | each kind reports its own class name: Running, SportsWalking or Swimming, and no two kinds share one |
| Homework.SpentCaloriesRawReadings | homework.py:59-126 | in raw readings: Running is (0.0117 * action - 20 * duration) * weight * 0.06, so the duration cancels out of the speed term; SportsWalking is (0.035 + 0.029 * floor(speed^2 / height)) * weight * duration * 60; Swimming is (pool length * pool count / (1000 * duration) + 1.1) * 2 * weight, without the stroke count |
| Homework.RunningCaloriesSign | homework.py:64-71 | with positive weight and duration, Running calories are negative exactly when speed < 20/18 km/h and zero exactly at it (no clamping) |
| Homework.WalkingCaloriesAtLeastBaseline | homework.py:88-97 | with positive weight, duration and height, SportsWalking calories are at least 0.035 * weight * duration * 60 |
| Homework.WalkingCaloriesSlow | homework.py:88-97 | when speed squared is below a positive height, the floor term is 0 and calories are exactly 0.035 * weight * duration * 60 |
| Homework.SwimmingCaloriesPositive | homework.py:122-126 | Swimming calories (speed + 1.1) * 2 * weight are positive for positive weight and non-negative speed |
| Homework.ShowTrainingInfo | homework.py:48-56 | the summary carries the class name, the unchanged duration and the distance, speed and calories of the same record; for Running and SportsWalking, speed times duration equals distance |
| Homework.SwimmingSummaryConsistency | homework.py:48-56 | in a Swimming summary, speed times duration equals the distance exactly when stroke count * 1.38 equals pool length * pool count, because distance comes from strokes and speed from the pool |
| Homework.GetMessage | homework.py:13-18 | the rendered line starts with the type label, the kind name and "; ", and ends with the formatted calories and "." |
| Homework.ReadPackage | homework.py:129-139 | fails with NotFound exactly for a code other than SWM/RUN/WLK; fails with WrongArity exactly when a known code gets a list whose length is not 5/3/4; otherwise builds the kind of that code from exactly those readings |
| Homework.ReadPackageRoundTrip | homework.py:129-137 | the dispatcher rebuilds every workout from its own code and positional readings |
| Homework.ReadPackageKindName | homework.py:131-137 | a successful SWM/RUN/WLK package yields a workout whose class name is Swimming/Running/SportsWalking |
| Homework.SampleSwimming | homework.py:150 | SWM [720, 1, 80, 25, 40] gives distance 0.9936 km, speed 1.0 km/h and 336.0 kcal |
| Homework.SampleRunning | homework.py:151 | RUN [15000, 1, 75] gives distance 9.75 km, speed 9.75 km/h and 699.75 kcal |
| Homework.SampleWalking | homework.py:152 | WLK [9000, 1, 75, 180] gives distance 5.85 km, speed 5.85 km/h, a zero floor term and 157.5 kcal |

## Left out

- `main` and the `__main__` block (homework.py:142-157) are a demo driver that prints to standard output. Their three sample packages appear only as the Sample lemmas.
- Homework.GetMessage: the three-decimal float formatting is a parameter `fmt3` and is not defined, so rounding to a decimal string is not modelled. The body follows the template field by field, but the contract states only the prefix (type label, kind name, "; ") and the suffix (formatted calories, "."). It does not state where the duration, distance and speed appear or in what order.
- IEEE-754 rounding: all quantities are exact reals, so results such as 699.7499999 versus 699.75 are not distinguished.
- The base `Training.get_spent_calories`, which returns `None` (homework.py:44-46), is left out. The dispatcher never builds a bare `Training`, so only the three kinds are modelled, and they are matched exhaustively.
- Python's exception types are reduced to two errors. `ValueError` for an unknown code becomes `NotFound`. The `TypeError` from calling a constructor with the wrong number of readings becomes `WrongArity`.
- Readings are `real`s. The source accepts any Python values in the list and never converts them, and the step count is only hinted as `int`. Non-numeric entries are not modelled.
- A zero duration, or a zero height in the walking formula, crashes the source with a division by zero. Here the affected functions require a non-zero divisor instead of modelling the crash.
