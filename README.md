# Sparse 2×2 table classifier — a Dafny model

This project models the classifier of NOSE_Stlit. The classifier sorts a 2×2
contingency table (a, b; c, d) that has at least one zero cell into a
sparseness category: Mild, Moderate or Severe. Two-level mode merges
Moderate into Severe. The rules follow Subbiah & Srinivasan (2008),
"Classification of 2×2 sparse data sets with zero cells", *Statistics &
Probability Letters* 78(18). There is one decision procedure for each
summary measure: odds ratio (OR), relative risk (RR) and risk difference (RD).

Layout:

- `tables.dfy` (module `Tables`): categories, the error variant, the
  sparseness check, level collapsing, and the fact that for non-negative
  cells a product guard such as `b * c * d > 0` means "all positive".
- `rules.dfy` (module `Rules`): the source's first-match chains of guarded
  `return`s, written as a sequence of `Rule(guard, verdict)` in source order.
  `FirstMatch` gives the index of the first guard that holds. Index `|rules|`
  is the final unconditional `return`.
- `odds_ratio.dfy`, `relative_risk.dfy`, `risk_difference.dfy`: the three
  chains, transcribed rule by rule with the source's own guards and
  constants, and the lemmas about them.
- `dispatch.dfy` (module `Dispatch`): the choice of classifier by measure,
  with the row totals `nt = a + b` and `nc = c + d` that the callers compute.

Every classifier returns `Err(NotSparse)` when all four cells are positive.
Otherwise it returns `Ok(Collapse(tree, levels))`, where `tree` is the
chain's category. In the source every `return` wraps its own label in
`collapse(…, levels)`. The model applies `Collapse` once, after the chain;
the two are the same thing. The classifier functions are total on all
integers, as the Python code is. Non-negative cells are a hypothesis of the
lemmas only. ε and m = 1/ε are exact reals.

Everything is a pure function, so equal inputs always give equal outputs.
No model state is shared between calls.

The model follows the code's first-match order even where it is surprising.
One might read the RR rules as "every table with three or four zero cells is
Mild", but that is not what the code does. In the RR chain, the rule at
noseapp.py:106 (`b == 0 and d == 0`) comes before the three-zero rules. So (0, 0, c, 0) with c > 0 and (a, 0, 0, 0)
with a > 0 are classified Severe, not Mild. `RrShadowedRules` proves that
none of the rules at lines 118-122 ever decides.

## Model

| member | source | states |
|---|---|---|
| `Tables.AllPositive` | noseapp.py:39 | `all(x > 0 for x in …)` is true exactly when every element of the list is positive |
| `Tables.CheckSparse` | noseapp.py:37-41 | the check reports the error exactly when a, b, c and d are all > 0; then no cell is zero |
| `Tables.Collapse` | noseapp.py:31-35 | with `levels == 2` the result is never Moderate; any other `levels`, or a category other than Moderate, is returned unchanged; collapsing never lowers the category |
| `Tables.CollapseIdempotent` | noseapp.py:31-35 | collapsing twice is the same as collapsing once |
| `Tables.CollapseMonotone` | noseapp.py:31-35 | collapsing keeps the order Mild < Moderate < Severe |
| `Tables.GuardProducts` | noseapp.py:53-144 | for non-negative cells, each product guard (`b * c * d > 0`, `a * c > 0`, …) holds exactly when all its factors are positive |
| `Rules.FirstMatch` | noseapp.py:53-94 | a top-down chain of guarded returns is decided by the first guard that holds; the final return is reached only when no guard holds |
| `OddsRatio.ClassifyOr` | noseapp.py:46-94 | the error is returned exactly for an all-positive table, before ε is used, so ε = 0 is allowed on a full table; in two-level mode Moderate never comes out; otherwise the result is the chain's category with m = 1/ε, collapsed |
| `OddsRatio.OrGuardPatterns` | noseapp.py:53-92 | for non-negative cells each of the 15 guards holds for exactly one pattern of zero cells |
| `OddsRatio.OrRulesExactlyOne` | noseapp.py:53-94 | for non-negative cells no two guards hold together; when some cell is zero one guard holds, so the fallback `return collapse("MILD")` is unreachable |
| `OddsRatio.OrOneZeroRule` | noseapp.py:53-71 | with exactly one zero cell, the rule for that cell decides |
| `OddsRatio.OrOneZero` | noseapp.py:53-71 | with exactly one zero cell: Mild iff opposite ≤ x + y; Moderate iff x + y < opposite ≤ x + y + m·x·y; Severe iff opposite is above both (x, y the zero's neighbours; for a = 0, Mild iff d ≤ b + c) |
| `OddsRatio.OneZeroMonotone` | noseapp.py:54-56 | the one-zero grading is non-decreasing in the opposite cell |
| `OddsRatio.OrMonotoneInOpposite` | noseapp.py:53-71 | for a one-zero table, raising the cell opposite the zero never lowers the category |
| `OddsRatio.OrManyZeros` | noseapp.py:73-92 | zeros {a,d} give Moderate, zeros {b,c} give Mild; zeros {a,b}, {a,c}, {b,d}, {c,d} give Mild iff the large cell ≤ 2k(k+1), else Severe; three zeros give Severe or Moderate by position; all zero gives Severe |
| `OddsRatio.OrManyZerosIgnoresEpsilon` | noseapp.py:50-92 | with two or more zero cells the category does not depend on ε |
| `RelativeRisk.ClassifyRr` | noseapp.py:96-124 | the error is returned exactly for an all-positive table; in two-level mode Moderate never comes out; otherwise the result is the chain's category, collapsed |
| `RelativeRisk.RrGuardProducts` | noseapp.py:100-110 | for non-negative cells the four product guards mean "the named cell is zero and the other three are positive" |
| `RelativeRisk.RrIgnoresTotals` | noseapp.py:96-124 | `nt` and `nc` never affect the result |
| `RelativeRisk.RrShadowedRules` | noseapp.py:106-124 | for any integers the rules at lines 118-122 never decide; for non-negative cells with a zero the fallback is unreachable too |
| `RelativeRisk.RrModerate` | noseapp.py:100-104 | Moderate iff (a = 0, b, c, d > 0 and d > b + c) or (c = 0, a, b, d > 0 and b ≤ d + a) |
| `RelativeRisk.RrSevere` | noseapp.py:106-107 | Severe iff b = 0, d = 0 and a ≠ c |
| `RiskDifference.ClassifyRd` | noseapp.py:126-152 | the error is returned exactly for an all-positive table; otherwise the result is the chain's category for the given nt and nc, collapsed; Moderate is never returned at any level count |
| `RiskDifference.RdNeverModerate` | noseapp.py:130-152 | no rule and no fallback of the RD chain yields Moderate |
| `RiskDifference.RdGuardPatterns` | noseapp.py:130-150 | for non-negative cells each of the 15 guards holds for exactly one pattern of zero cells |
| `RiskDifference.RdRulesExactlyOne` | noseapp.py:130-152 | for non-negative cells no two guards hold together, and with a zero cell one holds, so the fallback is unreachable |
| `RiskDifference.RdSevere` | noseapp.py:130-150 | Severe iff exactly three cells are zero, or a = c = 0 (b, d > 0) or b = d = 0 (a, c > 0) with nt ≠ nc; the all-zero table is Mild |
| `Dispatch.Classify` | noseapp.py:208-216 | OR runs the odds-ratio classifier with ε; RR and RD run their classifiers with nt = a + b and nc = c + d; so the error is returned exactly for an all-positive table, two-level mode never yields Moderate, and RD never yields Moderate |
| `Dispatch.ClassifyRdWithRowTotals` | noseapp.py:208-216 | with nt = a + b and nc = c + d, RD's nt ≠ nc test becomes b ≠ d (zero left column) or a ≠ c (zero right column) |
| `Dispatch.ClassifyOrOneZero` | noseapp.py:46-71 | with one zero cell and ε ≠ 0, the OR path returns a category; with three levels it is graded by the opposite cell against x + y and x + y + m·x·y (m = 1/ε); with two levels it is Mild iff the opposite cell ≤ x + y |
| `Dispatch.ClassifyOrManyZeros` | noseapp.py:73-92 | through the whole OR path, for any ε, each two-, three- and four-zero pattern gets its category: a zero row or column is Mild iff the large cell ≤ 2k(k+1), else Severe; zeros {a,d}, {a,b,d}, {b,c,d} give Moderate (Severe with two levels); zeros {b,c} give Mild; {a,b,c}, {a,c,d} and all zeros give Severe |
| `Dispatch.ClassifyOrMonotoneInOpposite` | noseapp.py:46-71 | through the whole OR path, at any level count, raising the cell opposite the single zero never lowers the category |
| `Dispatch.ClassifyRrCategories` | noseapp.py:96-124 | through the whole RR path, with three levels: Moderate iff (a = 0, b, c, d > 0, d > b + c) or (c = 0, a, b, d > 0, b ≤ d + a); Severe iff b = d = 0 and a ≠ c; with two levels Severe is the union of both |
| `Dispatch.WorkedExamples` | noseapp.py:202-216 | (5,1,0,10) is Mild under OR, the page's default input; (0,1,2,5) with ε = 0.5 is Moderate, or Severe with two levels; (0,5,3,1) is Mild under RR; (0,3,0,4) is Severe under RD; the all-zero table is Severe under OR |

## Left out

- The sensitivity plot (noseapp.py:262-286) is left out. It evaluates the OR, RR and RD formulas on `a + ε` etc. in floating point for matplotlib, and makes no decision.
- The batch CSV page (noseapp.py:229-246) is left out. Its reading, iterating and downloading are I/O, and its per-row work is `Dispatch.Classify`.
- The Streamlit page set-up, CSS, navigation and input widgets (noseapp.py:10-26, 157-217) are user interface.
- IEEE-754 rounding of `m = 1.0 / cc` and of `m * b * c` is not modelled. ε and m are exact reals, so a table whose opposite cell sits exactly on the Moderate/Severe boundary may be graded differently by the floating-point code.
- `OddsRatio.ClassifyOr` requires ε ≠ 0 unless all four cells are positive. On a sparse table with ε = 0, Python would raise a division error at `m = 1.0 / cc`; on a full table it returns the error before dividing, as the model does. The page itself enforces ε ≥ 1e-8.
- The error message text of `check_sparse` is the single variant `NotSparse`.
- Non-integer cell values are not modelled; cells are integers. Negative cells are accepted by the classifier functions, as by the code, but the lemmas assume non-negative cells.
- `levels` is an integer. Only the value 2 changes anything, as in the code.
