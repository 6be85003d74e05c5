# Bottom-effect correction factors

PyFMRheo computes the elastic modulus of a soft sample from AFM force
curves. A thin sample sits on a stiff substrate, and that substrate makes
the sample look stiffer than it is. The library corrects for this with
"bottom effect correction" (BEC) coefficients. Each coefficient multiplies
the contact model at one indentation depth.

The module `src/pyfmrheo/models/correction_factors.py` has six providers.
Each takes:

- the sample height `h`;
- a list of indentation depths;
- the tag of the indenter geometry;
- a tip parameter (a radius or a half-opening angle).

Each returns one coefficient per depth, in order. A provider raises before
producing any output when the tag is not one it supports. Every provider
runs each sample inside a try block whose except branch appends 1.0, so
the output always has as many entries as the input.

| provider | accepted tag | coefficient of one sample |
|---|---|---|
| Dimitriadis, bonded and not bonded | `paraboloid` | 1 + a1 X + a2 X^2 + a3 X^3 + a4 X^4, X = sqrt(d R) / h |
| Gavara | `cone` | 1 + 1.7795 (2 t / pi^2) (d/h) + 16 (1.7795)^2 t^2 (d/h)^2, t = tan(theta) |
| Managuli | `cone` | 1 + 4 C d / h + 20 C^2 d^2 / h^2, C = 1.7795 t / pi^2 |
| Garcia and Garcia | `paraboloid`, `conical`, `flat_punch` | 1 + the first `order` terms of the geometry's four-term table |
| Kontomaris | `paraboloid` | 3/2 sqrt(R) times the sum of the first `order` terms of a six-term table |

Dimitriadis, Gavara, Managuli and Garcia apply no correction (1.0) unless
`h > 0`. Kontomaris ignores `h`.

The model is written in Dafny, one module per source section:

- `common.dfy` (`BecCommon`): the provider names, the geometry error, the
  result type, `Pow`, and the square-root predicate `IsSqrt`.
- `dimitriadis.dfy` (`Dimitriadis`): the two Dimitriadis providers.
- `cone.dfy` (`ConeModels`): the Gavara and Managuli providers.
- `garcia.dfy` (`GarciaGarcia`): the Garcia tables and provider.
- `kontomaris.dfy` (`Kontomaris`): the Kontomaris table and provider.

How the model is written:

- Arithmetic is over the reals.
- `np.sqrt` and `np.tan` are parameters of type `real -> real`. The
  properties that need a square root assume only `IsSqrt`: on
  non-negative arguments it returns the non-negative root.
- `np.pi` is the exact rational value of the double the library uses,
  884279719003555 / 281474976710656 (3.14159265358979311599...).
- Each provider is a method with a `for` loop that appends to a
  sequence, as in the source. It is proved against a pure function that
  gives the coefficient of one sample.
- The inner `for j in range(order)` loops of Garcia and Kontomaris are
  `Sample` methods with loop invariants. Each returns `None` when it
  would index past the end of its table; that is the raise the except
  branch catches. The provider then appends 1.0 for that sample.

## Model

| member | source | states |
|---|---|---|
| Dimitriadis.Bec | src/pyfmrheo/models/correction_factors.py:9-50 | Raises exactly when the tag is not "paraboloid", naming the bonded or not-bonded provider. Otherwise it returns one coefficient per depth. Element i is the bonded (1.133, 1.283, 0.769, 0.0975) or not-bonded (0.884, 0.781, 0.386, 0.0048) series in sqrt(d_i R)/h, or 1.0 when h <= 0. |
| Dimitriadis.IdentityWithoutHeight | src/pyfmrheo/models/correction_factors.py:15-16 | With h <= 0 the coefficient is 1.0 whatever the depth and radius. |
| Dimitriadis.PolynomialAtLeastOne | src/pyfmrheo/models/correction_factors.py:17-20 | For X >= 0 the series is at least 1, and it equals 1 exactly when X = 0 (both constant sets). |
| Dimitriadis.AtLeastOne | src/pyfmrheo/models/correction_factors.py:17-20 | For h > 0 and d R >= 0 the coefficient is at least 1, and it is exactly 1 iff d R = 0. |
| Dimitriadis.NeutralAtZeroDepth | src/pyfmrheo/models/correction_factors.py:15-20 | Zero depth gives coefficient 1.0 for any height and radius. |
| Dimitriadis.BondedCorrectsMore | src/pyfmrheo/models/correction_factors.py:17-42 | For the same X > 0 the bonded series is strictly larger than the not-bonded one. |
| Dimitriadis.BondedWorkedCase | src/pyfmrheo/models/correction_factors.py:17-20 | h = 2, d = 0.5, R = 5 on a bonded sample give a coefficient strictly between 3.115 and 3.116. |
| ConeModels.BecGavara | src/pyfmrheo/models/correction_factors.py:55-75 | Raises exactly when the tag is not "cone". Otherwise it returns one coefficient per depth. Element i is Gavara's series in d_i/h and tan(theta), or 1.0 when h <= 0. |
| ConeModels.BecManaguli | src/pyfmrheo/models/correction_factors.py:81-100 | Raises exactly when the tag is not "cone". Otherwise it returns one coefficient per depth. Element i is Managuli's series with C = 1.7795 tan(theta)/pi^2, or 1.0 when h <= 0. |
| ConeModels.IdentityWithoutHeight | src/pyfmrheo/models/correction_factors.py:61-62 | With h <= 0 both cone coefficients are 1.0. |
| ConeModels.NeutralAtZeroDepth | src/pyfmrheo/models/correction_factors.py:61-67 | Zero depth gives 1.0 for both cone models, whatever the height and angle. |
| ConeModels.GavaraAtLeastOne | src/pyfmrheo/models/correction_factors.py:62-67 | For h > 0, d >= 0 and tan(theta) >= 0 Gavara's coefficient is at least 1. It is exactly 1 iff d = 0 or tan(theta) = 0. |
| ConeModels.ManaguliAtLeastOne | src/pyfmrheo/models/correction_factors.py:88-92 | For h > 0, d >= 0 and tan(theta) >= 0 Managuli's coefficient is at least 1. It is exactly 1 iff d = 0 or tan(theta) = 0. |
| GarciaGarcia.Sample | src/pyfmrheo/models/correction_factors.py:140-150 | The inner loop starts at 1.0. With h <= 0 it returns 1.0. With h > 0 and order <= 4 it returns 1 + the sum of the first max(order, 0) table terms. With h > 0 and order > 4 it fails (the table has no fifth term). |
| GarciaGarcia.Bec | src/pyfmrheo/models/correction_factors.py:126-153 | Raises exactly when the tag is not one of the table keys "paraboloid", "conical", "flat_punch" (so "cone" is rejected). Otherwise it returns one coefficient per depth: that sample's coefficient for the looked-up table, with 1.0 in place of a failed sample. |
| GarciaGarcia.IdentityWithoutHeight | src/pyfmrheo/models/correction_factors.py:141-143 | With h <= 0 the coefficient is 1.0 for every order, even one beyond the table. |
| GarciaGarcia.NoTermSelected | src/pyfmrheo/models/correction_factors.py:144-146 | An order <= 0 selects no term: the coefficient is 1.0. |
| GarciaGarcia.OrderBeyondTable | src/pyfmrheo/models/correction_factors.py:144-152 | An order > 4 makes the sample fall back to 1.0. |
| GarciaGarcia.OrderStep | src/pyfmrheo/models/correction_factors.py:144-146 | For h > 0 and k < 4, order k + 1 adds exactly term k to the order-k coefficient. |
| GarciaGarcia.FlatPunchUniform | src/pyfmrheo/models/correction_factors.py:119-124 | The flat-punch coefficient does not depend on the depth, so all samples of one call get the same value. |
| GarciaGarcia.FlatPunchSumUniform | src/pyfmrheo/models/correction_factors.py:119-124 | Each partial sum of flat-punch terms is the same at any two depths. |
| GarciaGarcia.FlatPunchLastTermNegative | src/pyfmrheo/models/correction_factors.py:123 | For h > 0 and a non-zero radius, the order-4 flat-punch term is strictly negative. |
| GarciaGarcia.ConicalTermIsPower | src/pyfmrheo/models/correction_factors.py:112-117 | The conical term of order k is c_k (d tan(theta)/h)^k, with c = (0.721, 0.650, 0.491, 0.225). |
| GarciaGarcia.NeutralAtZeroDepth | src/pyfmrheo/models/correction_factors.py:105-117 | At zero depth the paraboloid and conical coefficients are 1.0 for every order and height. |
| GarciaGarcia.ZeroDepthSum | src/pyfmrheo/models/correction_factors.py:105-117 | At zero depth every paraboloid and conical partial sum is 0. |
| Kontomaris.Sample | src/pyfmrheo/models/correction_factors.py:183-190 | The inner loop starts at 0.0. For order <= 6 it returns the sum of the first max(order, 0) terms, each scaled by 3/2 sqrt(R). For order > 6 it fails (the table has no seventh term). |
| Kontomaris.Bec | src/pyfmrheo/models/correction_factors.py:175-196 | Raises exactly when the tag is not "paraboloid". Otherwise it returns one coefficient per depth: that sample's Kontomaris coefficient, or 1.0 for a failed sample. The result does not depend on h. |
| Kontomaris.NoTermSelected | src/pyfmrheo/models/correction_factors.py:184-188 | An order <= 0 gives 0.0: nothing is added to the starting value. |
| Kontomaris.OrderBeyondTable | src/pyfmrheo/models/correction_factors.py:184-194 | An order > 6 makes the sample fall back to 1.0, whatever the radius. |
| Kontomaris.OrderStep | src/pyfmrheo/models/correction_factors.py:186-188 | For k < 6, order k + 1 adds exactly the scaled term k to the order-k coefficient. |
| Kontomaris.LeadingContribution | src/pyfmrheo/models/correction_factors.py:167-188 | For R > 0 the scaled first term 3/2 sqrt(R) (2/3 c1 / sqrt(R)) equals c1 = 1.01, at every depth. |
| Kontomaris.HigherTermVanishes | src/pyfmrheo/models/correction_factors.py:168-172 | Every term of order 2 to 6 is 0 at zero depth. |
| Kontomaris.ZeroDepth | src/pyfmrheo/models/correction_factors.py:166-194 | For R > 0, zero depth and order 1 to 6, the coefficient is exactly 1.01. |
| Kontomaris.ZeroDepthSum | src/pyfmrheo/models/correction_factors.py:166-188 | At zero depth, the sum of the first n scaled terms is 1.01 for 1 <= n <= 6. |
| Kontomaris.FirstOrderConstant | src/pyfmrheo/models/correction_factors.py:167-188 | With order 1 the coefficient is 1.01 at every depth. |

## Left out

- Floating point: the model computes over the reals. IEEE-754 rounding, NaN and infinities are not modelled. For example, Python's `2/3` is a rounded double, and here it is exactly 2/3.
- `np.sqrt` is a parameter constrained only by `IsSqrt` on non-negative arguments; its value on negatives (NaN in the library) is left open. `np.tan` is a parameter left entirely unconstrained; the cone lemmas that need a sign take `tan(theta) >= 0` as a hypothesis. `np.pi` is the exact rational value of its double, 884279719003555 / 281474976710656.
- The except branches of the Dimitriadis, Gavara and Managuli providers: nothing in those bodies can raise in the model. NumPy turns a square root of a negative into NaN with a warning, not an exception. Those providers therefore have no fallback path in the model.
- Floating-point overflow: on plain Python floats, `**` raises OverflowError when the power exceeds the double range, for example Gavara's `X ** 2` (line 66), Managuli's `indentation[i] ** 2` and `h ** 2` (line 91), and the powers of `h` and `R` in the Garcia and Kontomaris tables. Such a sample takes the except branch and gets 1.0 in the library; the model, over unbounded reals, gives it the value of the series. Underflow is the mirror case: a tiny positive `h` makes `h ** 2` or `h ** 4` round to 0.0 (for example `1e-170 ** 2 == 0.0`), so Garcia's paraboloid terms 2 and 4 (lines 107, 109) and flat-punch terms 2 to 4 (lines 121-123) raise ZeroDivisionError and that sample gets 1.0 in the library, where the model gives the series value.
- `traceback.print_exc()` in every except branch: diagnostic output only.
- The text of the exception messages: the error carries only the provider and the offending tag.
- Python dynamic-typing failures, such as non-numeric depths or a non-integer order.
- Kontomaris.Bec: requires R > 0 and sqrt(R) != 0 whenever order >= 1, because its loop evaluates the terms (six of them before failing when order > 6). At R = 0 the library divides by zero and produces an infinity; for R < 0 `np.sqrt` gives NaN; neither is a real number. This also excludes R <= 0 with order > 6, where the library returns 1.0 for every sample; that case is stated without the requirement by Kontomaris.OrderBeyondTable about the per-sample coefficient.
- Kontomaris.Sample: carries the same requirement on R as Kontomaris.Bec.
- GarciaGarcia.Bec: the source rejects a tag when the table lookup gives a falsy value. All three tables are non-empty, so this is the same as rejecting a tag that is not a key.
