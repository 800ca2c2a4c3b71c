# FractalViewer core in Dafny

FractalViewer is a macOS viewer for the Mandelbrot, Julia and Newton fractals. The
Newton fractal iterates z ← z − f(z)/f′(z) on the GPU, and its polynomial f comes
from the Swift `Polynomial` type: a dense array of complex coefficients (`float2`
pairs, index 0 the constant term) with constructors, `+`, `-`, `*`, `derivative` and a
padding-tolerant `==`. This project models that type, the shader-parameter records
built from it, and the state rules the two generations of the app's user interface
apply to their model objects.

Modules and files:

- `Complex` (complex.dfy): `float2` as a pair of reals and `complex_mul`.
- `Polynomials` (polynomials.dfy): what each `Polynomial` operation computes, as
  functions on coefficient sequences; `Coef` reads past the end as zero and
  `SameCoefficients` is the relation `==` decides.
- `Newton` (newton.dfy): the initialisers and operators as the source runs them, in
  loops over a zero-filled coefficient array, each proved equal to its function.
- `PolynomialAlgebra` (polynomial_algebra.dfy): lengths, padding, commutativity of `+`
  and `*` (the latter by exchanging the order of the double sum), the shape of
  `init(roots:)`, and the behaviour of `-`.
- `PolynomialEval` (polynomial_eval.dfy): the value of a polynomial at a complex point
  by Horner's rule; `+`, the corrected subtraction and multiplication by a linear
  factor act on values as expected, so every root given to `init(roots:)` is a root
  of the result.
- `NewtonTests` (newton_tests.dfy): the assertions of the polynomial unit test.
- `ShaderTypes`, `Gpu`, `MandelbrotRender` (shader_types.dfy, gpu.dfy,
  mandelbrot_render.dfy): the `df64` records sent to the Newton shader, in the app and
  in the older screen-saver renderer.
- `Decimal`, `Clamping` (decimal.dfy, clamping.dfy): Swift's `Int(text)` /
  `Int32(text)`, the `"\(n)"` rendering, and `min(max(x, lo), hi)`.
- `FractalAppUI` (fractal_app_ui.dfy): the current app's view handlers, as classes
  whose methods update the `Model` and `CanvasModel` objects in place.
- `FractalAppApp`, `ContentView` (fractal_app_app.dfy, content_view.dfy): the older
  app generation's overlay toggle, settings fields, scroll and keyboard panning.

Floating-point numbers (Float64, Float32) are modelled as reals. The polynomial
tests use integer-valued coefficients, so nothing they assert depends on rounding.

## Model

| member | source | states |
|---|---|---|
| Complex.ComplexMul | FractalApp/Newton.swift:97-101 | complex_mul has One as identity on both sides, Zero as absorbing element, and scales by b.x when b is real |
| Complex.ComplexMulCommutes | FractalApp/Newton.swift:97-101 | complex_mul(a, b) == complex_mul(b, a), which makes `*` commutative |
| Complex.ComplexMulDistributes | FractalApp/Newton.swift:97-101 | complex_mul distributes over `+` on both sides |
| Complex.MulByNegation | FractalApp/Newton.swift:97-101 | complex_mul(a, −b) == −complex_mul(a, b) |
| Complex.ComplexMulAssociates | FractalApp/Newton.swift:97-101 | complex_mul is associative |
| Polynomials.WithDegree | FractalApp/Newton.swift:8-11 | init(degree:) has degree + 1 coefficients, all zero |
| Polynomials.FromReals | FractalApp/Newton.swift:14-19 | init(coefficients:) has one coefficient per input, with real part the input and imaginary part 0 |
| Polynomials.Plus | FractalApp/Newton.swift:39-48 | `+` has max(l, r) + 1 coefficients; coefficient c is lhs[c] + rhs[c], missing entries read as zero |
| Polynomials.Minus | FractalApp/Newton.swift:50-59 | `-` as written has max(l, r) + 1 coefficients and coefficient c is −(lhs[c] + rhs[c]) |
| Polynomials.Difference | FractalApp/Newton.swift:50-59 | the intended `-`: same length, coefficient c is lhs[c] − rhs[c] |
| Polynomials.Times | FractalApp/Newton.swift:61-70 | `*` has l + r + 1 coefficients; coefficient k sums complex_mul(rhs[j], lhs[i]) over i + j == k in loop order |
| Polynomials.Derivative | FractalApp/Newton.swift:28-36 | derivative() needs two coefficients, keeps the length, puts (k + 1)·p[k + 1] at k and zero in the last entry |
| Polynomials.Factor | FractalApp/Newton.swift:22-24 | the factor of a root is [−root, 1] |
| Newton.InitCoefficients | FractalApp/Newton.swift:14-19 | the in-place loop builds exactly FromReals(values) |
| Newton.InitRoots | FractalApp/Newton.swift:21-26 | needs two roots (a single root traps on 1...0); the loop builds FromRoots(roots) |
| Newton.Differentiate | FractalApp/Newton.swift:28-36 | needs two coefficients; the loop builds Derivative(p) |
| Newton.Add | FractalApp/Newton.swift:39-48 | the two accumulation loops build Plus(lhs, rhs) |
| Newton.Subtract | FractalApp/Newton.swift:50-59 | the two subtracting loops build Minus(lhs, rhs) |
| Newton.Multiply | FractalApp/Newton.swift:61-70 | the nested loops build Times(lhs, rhs) |
| Newton.Equals | FractalApp/Newton.swift:72-95 | needs both operands non-empty; returns true exactly when every power has the same coefficient, extra entries of the longer side being zero |
| PolynomialAlgebra.PlusCommutes | FractalApp/Newton.swift:39-48 | p + q == q + p exactly |
| PolynomialAlgebra.PlusPadsWithZero | FractalApp/Newton.swift:39-48 | the last entry of a sum is zero |
| PolynomialAlgebra.MinusIsNegatedPlus | FractalApp/Newton.swift:50-59 | a − b has the length of a + b and is its negation coefficient by coefficient |
| PolynomialAlgebra.MinusOfItselfAt | FractalApp/Newton.swift:50-59 | coefficient c of p − p is −2·p[c] |
| PolynomialAlgebra.MinusOfItself | FractalApp/Newton.swift:50-59 | p − p == 0 under `==` if and only if p == 0 |
| PolynomialAlgebra.MinusOfNonZeroConstant | FractalApp/Newton.swift:50-59 | for any p with a non-zero constant term, p − p is not 0 under `==` |
| PolynomialAlgebra.DifferenceUndoesPlus | FractalApp/Newton.swift:50-59 | with the intended subtraction, (p + q) − q == p under `==` |
| PolynomialAlgebra.DifferenceOfItself | FractalApp/Newton.swift:50-59 | with the intended subtraction, p − p == 0 under `==` and p − q == −(q − p) |
| PolynomialAlgebra.TimesZeroTail | FractalApp/Newton.swift:61-70 | every coefficient of p * q from l + r − 1 upward is zero |
| PolynomialAlgebra.TimesCommutes | FractalApp/Newton.swift:61-70 | p * q == q * p exactly, in length and in every coefficient |
| PolynomialAlgebra.TimesLinearAt | FractalApp/Newton.swift:61-70 | coefficient k of p * [a, b] is a·p[k] + b·p[k − 1] |
| PolynomialAlgebra.TimesLinear | FractalApp/Newton.swift:61-70 | TimesLinearAt at every k |
| PolynomialAlgebra.TimesFactorLeading | FractalApp/Newton.swift:21-26 | multiplying by x − root moves a leading 1 at power d to power d + 1 |
| PolynomialAlgebra.TimesFactorZeroAbove | FractalApp/Newton.swift:21-26 | multiplying by x − root keeps everything above power d + 1 zero |
| PolynomialAlgebra.FromRootsShape | FractalApp/Newton.swift:21-26 | with n roots the array has 3n − 1 coefficients, coefficient n is 1 and every coefficient above n is zero |
| PolynomialAlgebra.DerivativeOfMonic | FractalApp/Newton.swift:28-36 | the derivative of a monic polynomial of degree n has n at power n − 1 and zeros from n upward |
| PolynomialAlgebra.SameCoefficientsIsEquivalence | FractalApp/Newton.swift:72-95 | the relation `==` decides is reflexive, symmetric and transitive |
| PolynomialAlgebra.PaddingIsInvisible | FractalApp/Newton.swift:72-95 | appending zero coefficients to the left or to the right operand never changes `==` |
| PolynomialEval.Eval | FractalApp/Newton.swift:13 | the value at z of the coefficient array: zero for an empty array, the constant term at z == 0 |
| PolynomialEval.EvalWithBound | FractalApp/Newton.swift:13 | Horner's rule run past the end of the array gives the same value |
| PolynomialEval.EvalRespectsEquality | FractalApp/Newton.swift:72-95 | polynomials equal under `==` have the same value everywhere |
| PolynomialEval.EvalPlus | FractalApp/Newton.swift:39-48 | (p + q)(z) == p(z) + q(z) |
| PolynomialEval.EvalMinus | FractalApp/Newton.swift:50-59 | as written, (p − q)(z) == −(p(z) + q(z)) |
| PolynomialEval.EvalDifference | FractalApp/Newton.swift:50-59 | with the intended subtraction, (p − q)(z) == p(z) − q(z) |
| PolynomialEval.EvalTimesLinear | FractalApp/Newton.swift:61-70 | (p * [a, b])(z) == (a + b·z)·p(z) |
| PolynomialEval.EvalTimesFactor | FractalApp/Newton.swift:21-26 | (p * (x − root))(z) == (z − root)·p(z) |
| PolynomialEval.EvalFromRootsPrefix | FractalApp/Newton.swift:21-26 | the product of the first n factors evaluates to the product of (z − root) over those roots |
| PolynomialEval.RootProductVanishes | FractalApp/Newton.swift:21-26 | that product is zero at each of its roots |
| PolynomialEval.EvalFromRoots | FractalApp/Newton.swift:21-26 | init(roots:) evaluates to the product of (z − root) over all its roots |
| PolynomialEval.RootsAreRoots | FractalApp/Newton.swift:21-26 | every root given to init(roots:) is a zero of the polynomial it builds |
| NewtonTests.ProductOfThreeFactors | FractalAppTests/FractalAppTests.swift:7-12 | (1 + x)(2 + x)(3 + x) == [6, 11, 6, 1] under `==` |
| NewtonTests.DerivativeOfProduct | FractalAppTests/FractalAppTests.swift:14 | the derivative of that product == [11, 12, 3] under `==` |
| NewtonTests.RootsOfQuadratic | FractalAppTests/FractalAppTests.swift:15 | init(roots: [−2, 0]) == [0, 2, 1] under `==` |
| NewtonTests.RootsOfCubic | FractalAppTests/FractalAppTests.swift:16 | init(roots: [−1, −2, −3]) == [6, 11, 6, 1] under `==` |
| ShaderTypes.ToDf64Pair | FractalApp/Gpu.swift:146-153 | df64_2 converts x and y each through the same scalar df64_t conversion |
| ShaderTypes.ToDf64PairIsComponentwise | FractalApp/Gpu.swift:146-153 | equal components convert equally on either side, and a real value shares its imaginary part with the zero pair |
| Gpu.FlagsAreDistinctBits | FractalApp/Gpu.swift:94-96 | the flags are 1, 4 and 8, single bits, pairwise ANDing to 0 |
| Gpu.LowCoefficients | FractalApp/Gpu.swift:129 | the four coefficients the record carries are coefficients 0..3 of the polynomial |
| Gpu.Create | FractalApp/Gpu.swift:126-131 | needs three roots; f0..f3 and df0..df3 are coefficients 0..3 of init(roots:) and of its derivative, r0..r2 the first three roots, and zoom 1, offset (0, 0), steps 1, flags 0, epsilon 0.000001 and colour_count 3; with three roots f3 is 1, df2 is 3 and df3 is 0 |
| Gpu.CreateSendsWholeCubic | FractalApp/Gpu.swift:126-131 | with three roots the four coefficients sent are the whole polynomial and the whole derivative under `==`, and vanish at each root the record carries |
| Gpu.DrawNewtonInputs | FractalApp/Gpu.swift:67-72 | the record sent takes zoom, offset (from c_offset), steps, flags and colour_count from the Mandelbrot inputs and keeps every coefficient, root and epsilon |
| MandelbrotRender.FlagsAreDistinctBits | Mandelbrot/MandelbrotRender.swift:93-94 | the flags are 1 and 4, single bits that do not overlap |
| MandelbrotRender.HardCodedRoots | Mandelbrot/MandelbrotRender.swift:68 | the renderer always uses three roots |
| MandelbrotRender.FactorAt | Mandelbrot/MandelbrotRender.swift:69 | coefficient k of p·(x − r) is p[k − 1] − r·p[k] |
| MandelbrotRender.QuadraticFromRoots | Mandelbrot/MandelbrotRender.swift:69 | Vieta's formulas for the product of two factors |
| MandelbrotRender.CubicFromRoots | Mandelbrot/MandelbrotRender.swift:69-70 | Vieta's formulas for three factors, and the derivative's coefficients from them |
| MandelbrotRender.HardCodedCubic | Mandelbrot/MandelbrotRender.swift:68-70 | the roots 1, 2 + 5i, 3 give f = −(6 + 15i) + (11 + 20i)x − (6 + 5i)x² + x³ and f′ = (11 + 20i) − (12 + 10i)x + 3x² |
| MandelbrotRender.DrawNewtonInputs | Mandelbrot/MandelbrotRender.swift:67-71 | zoom, offset, steps and flags are copied from the Mandelbrot inputs, r0..r2 are 1, 2 + 5i, 3 and f0..f3, df0..df3 are the literal coefficients above, whatever the inputs |
| Decimal.ParseInt | FractalApp/FractalAppUI.swift:233 | Int(text) yields only values in the type's range, and only for text starting with a digit or a sign |
| Decimal.ShowNatParses | FractalApp/FractalAppUI.swift:239 | the digits "\(n)" prints for n ≥ 0 are non-empty, have no leading zero and parse back to n |
| Decimal.ParseShow | FractalApp/FractalAppUI.swift:233-239 | Int("\(n)") == n for every n in range |
| Decimal.LeadingZeroIsIgnored | FractalApp/FractalAppUI.swift:233 | a leading zero does not change the value parsed |
| Decimal.SignsOfShownValues | FractalApp/FractalAppUI.swift:233 | a leading "+" is accepted and changes nothing, and "-0" is 0 |
| Clamping.ClampInt | FractalApp/FractalAppUI.swift:236 | min(max(x, lo), hi) is at most hi, at least lo when lo ≤ hi, x itself when x is in range, and the nearer bound otherwise |
| Clamping.ClampReal | FractalApp/FractalAppUI.swift:362 | the same for Float64 |
| FractalAppUI.FractalChanged | FractalApp/FractalAppUI.swift:200-211 | a fractal change selects the new fractal, swaps prevZ and z_initial, sets dirty, sets zoom to 1 exactly for Newton and leaves every other field alone |
| FractalAppUI.FractalChangedTwiceRestoresStartPoints | FractalApp/FractalAppUI.swift:202-204 | two consecutive changes restore both start points |
| FractalAppUI.ClampedSubmission | FractalApp/FractalAppUI.swift:230-236 | the submitted value lies in [2, 20000]; it fails exactly when Int(text) fails; a parsed value becomes min(max(n, 2), 20000): kept when in range, 2 below it, 20000 above it |
| FractalAppUI.ShownValueResubmits | FractalApp/FractalAppUI.swift:233-239 | the text a field shows for a value in [2, 20000] submits that value |
| FractalAppUI.StepsSubmitted | FractalApp/FractalAppUI.swift:232-238 | a parsed steps text sets steps to the clamped value and dirty; an unparsable text changes nothing |
| FractalAppUI.WrapSubmitted | FractalApp/FractalAppUI.swift:245-249 | the same for wrap and colour_count |
| FractalAppUI.StepsSubmitSettles | FractalApp/FractalAppUI.swift:232-239 | after a submit steps is unchanged or in [2, 20000], and submitting the reset text again changes only dirty |
| FractalAppUI.WrapSubmitSettles | FractalApp/FractalAppUI.swift:245-250 | the same for colour_count |
| FractalAppUI.Flipped | FractalApp/FractalAppUI.swift:256-264 | the resolution binding maps v to 9 − v, so it is its own inverse and keeps [1, 8] |
| FractalAppUI.CompensatedZoom | FractalApp/FractalAppUI.swift:53-59 | after a resolution change the new zoom times the new scale equals the old zoom times the old scale; the display scale cancels |
| FractalAppUI.CompensationIsReversible | FractalApp/FractalAppUI.swift:53-59 | changing the resolution and back restores the zoom, whatever the display scales |
| FractalAppUI.TruncatedToInt | FractalApp/FractalAppUI.swift:276 | Int(Float64) truncates toward zero |
| FractalAppUI.Interpolate | FractalApp/FractalAppUI.swift:417-418 | the point a fraction t along [lo, hi] lies between lo and hi for t in [0, 1] |
| FractalAppUI.DragAxis | FractalApp/FractalAppUI.swift:414-418 | one axis of a drag lands in [lo, hi] |
| FractalAppUI.DragValue | FractalApp/FractalAppUI.swift:412-418 | a drag gives minVal + clamp01(fraction)·(maxVal − minVal), inside [minVal, maxVal] on each axis where minVal ≤ maxVal |
| FractalAppUI.KnobFollowsDrag | FractalApp/FractalAppUI.swift:396-418 | after a drag the knob is drawn under the pointer, or on the nearest edge of the square when the pointer is outside it |
| FractalAppUI.AxisFollowsDrag | FractalApp/FractalAppUI.swift:396-418 | KnobFollowsDrag on one axis |
| FractalAppUI.ContentView.OnResolutionScaleChange | FractalApp/FractalAppUI.swift:53-59 | sets zoom to CompensatedZoom and changes nothing else in the model |
| FractalAppUI.ConfigView.SetCOffset | FractalApp/FractalAppUI.swift:90-96 | sets c_offset and dirty, nothing else |
| FractalAppUI.ConfigView.SetZInitial | FractalApp/FractalAppUI.swift:116-122 | sets z_initial and dirty, nothing else |
| FractalAppUI.CanvasConfigView.constructor | FractalApp/FractalAppUI.swift:65 | the fields start out showing steps and colour_count |
| FractalAppUI.CanvasConfigView.OnFractalChange | FractalApp/FractalAppUI.swift:200-211 | the model's new state is FractalChanged of the old one |
| FractalAppUI.CanvasConfigView.OnColouringChange | FractalApp/FractalAppUI.swift:218-221 | sets the Newton colouring and dirty, nothing else |
| FractalAppUI.CanvasConfigView.SubmitSteps | FractalApp/FractalAppUI.swift:230-240 | the model's new state is StepsSubmitted of the old state and text, and the text becomes "\(steps)" either way |
| FractalAppUI.CanvasConfigView.SubmitWrap | FractalApp/FractalAppUI.swift:245-251 | the same with WrapSubmitted and the wrap text |
| FractalAppUI.CanvasConfigView.ResolutionValue | FractalApp/FractalAppUI.swift:259 | the slider shows 9 − resolutionScale |
| FractalAppUI.CanvasConfigView.SetResolution | FractalApp/FractalAppUI.swift:260-263 | sets resolutionScale to 9 − v and dirty; the slider then reads v, and v in [1, 8] keeps resolutionScale in [1, 8] |
| FractalAppUI.CanvasConfigView.SetFps | FractalApp/FractalAppUI.swift:273-278 | sets fps to the truncated value and nothing else in the canvas |
| FractalAppUI.SliderPlane.SetRealText | FractalApp/FractalAppUI.swift:358-364 | a parsed R text clamps into [minVal.x, maxVal.x] and leaves y alone; unparsable text changes nothing |
| FractalAppUI.SliderPlane.SetImaginaryText | FractalApp/FractalAppUI.swift:371-377 | the same for the I text and y |
| FractalAppUI.SliderPlaneInner.Drag | FractalApp/FractalAppUI.swift:412-418 | the value becomes DragValue of the pointer, inside [minVal, maxVal] where minVal ≤ maxVal |
| FractalAppApp.KeyDown | FractalApp/FractalAppApp.swift:39-48 | key 14 toggles show_ui, sets dirty and consumes the event; any other key passes the event on unchanged and changes nothing |
| FractalAppApp.KeyETwiceRestoresOverlay | FractalApp/FractalAppApp.swift:41-43 | pressing key 14 twice restores show_ui, leaving the model dirty |
| FractalAppApp.Int32Submission | FractalApp/FractalAppApp.swift:73-76 | the submitted value lies in [2, 10000]; it fails exactly when Int32(text) fails; a parsed value becomes min(max(n, 2), 10000): kept when in range, 2 below it, 10000 above it |
| FractalAppApp.ShownValueResubmits | FractalApp/FractalAppApp.swift:73-79 | the text shown for a value in [2, 10000] submits that value |
| FractalAppApp.StepsSubmitted | FractalApp/FractalAppApp.swift:72-78 | a parsed steps text sets steps to the clamped value and dirty; unparsable text changes nothing |
| FractalAppApp.WrapSubmitted | FractalApp/FractalAppApp.swift:85-89 | the same for colour_count |
| FractalAppApp.StepsSubmitSettles | FractalApp/FractalAppApp.swift:72-80 | after a submit steps is unchanged or in [2, 10000], and resubmitting the reset text changes only dirty |
| FractalAppApp.WrapSubmitSettles | FractalApp/FractalAppApp.swift:85-91 | the same for colour_count |
| FractalAppApp.ContentView.OnKeyDown | FractalApp/FractalAppApp.swift:39-48 | the overlay flag, the inputs and the returned event are those KeyDown gives |
| FractalAppApp.ConfigView.constructor | FractalApp/FractalAppApp.swift:57-61 | the fields start out showing steps and colour_count |
| FractalAppApp.ConfigView.SubmitSteps | FractalApp/FractalAppApp.swift:72-80 | the inputs become StepsSubmitted of the old inputs and text; the text becomes "\(steps)" either way |
| FractalAppApp.ConfigView.SubmitWrap | FractalApp/FractalAppApp.swift:85-91 | the same with WrapSubmitted |
| FractalAppApp.ConfigView.SetZInitialRealText | FractalApp/FractalAppApp.swift:96-104 | a parsed Z_r text clamps z_initial.x into [−2, 2] and sets dirty; unparsable text changes nothing |
| FractalAppApp.ConfigView.SetZInitialImaginaryText | FractalApp/FractalAppApp.swift:111-119 | the same for Z_i and z_initial.y |
| ContentView.Scrolled | FractalApp/ContentView.swift:38-41 | the frame index after a scroll is never negative: frame + delta, or 0 when that is negative |
| ContentView.ScrollIsReversible | FractalApp/ContentView.swift:38-41 | scrolling back by the same delta returns to the start when the floor was not hit |
| ContentView.PanStep | FractalApp/ContentView.swift:48 | the pan step is 10 / t |
| ContentView.Panned | FractalApp/ContentView.swift:49-60 | 'a' and 'd' move x down and up, 's' and 'w' move y up and down by the pan step; other keys leave c_offset alone |
| ContentView.EachKeyMovesOneCoordinate | FractalApp/ContentView.swift:49-57 | each pan key changes exactly one coordinate |
| ContentView.OppositeKeysCancel | FractalApp/ContentView.swift:50-57 | 'a' then 'd', 'd' then 'a', 's' then 'w' and 'w' then 's' restore c_offset |
| ContentView.MetalView.OnScroll | FractalApp/ContentView.swift:37-44 | frame_index becomes Scrolled of the old one, nothing else changes, and the event is passed on |
| ContentView.MetalView.OnKeyDown | FractalApp/ContentView.swift:45-62 | c_offset becomes Panned of the old one, t and the frame index are unchanged, and the event is passed on |

## Left out

- The df64 split in `df64_t.init` (FractalApp/Gpu.swift:134-144, Mandelbrot/MandelbrotRender.swift:125-134) is IEEE double-to-float rounding; the records take the scalar conversion as a parameter `toDF`.
- Mandelbrot/float_float.h (the float-float arithmetic of the shaders) is not part of this model: its correctness is about float rounding.
- Floating point in general: Float64 and Float32 are reals, so rounding, NaN, infinities and −0.0 are not modelled.
- GPU plumbing (devices, pipelines, command buffers, `setFragmentBytes` and struct stride) and the screen-saver files Mandelbrot/MandelbrotView.swift and Mandelbrot/MandelbrotScreensaver.swift are not part of this model.
- SwiftUI layout, GeometryReader frames, the NSEvent monitor registration, AppDelegate and the MetalView coordinator are left out; the handlers are methods called with the event or the new value.
- The log2/pow/log10 zoom and precision sliders and labels (FractalApp/FractalAppUI.swift:101-114, 297-304) are transcendental float functions and are left out.
- `zoomCentered`, `minZoom`, `setDefaults`, `updateNewton`, `scaledDrawSize` and `usingDoubles` are called by the views but their bodies are not part of this model, so the Reset button, the root sliders of NewtonConfigView and the size and precision labels are left out.
- The placeholder assertion at FractalAppTests/FractalAppTests.swift:13 always fails by design and states no property.
- `Float64(text)` and `Float(text)` parsing is not modelled: the slider-plane and z_initial setters take the parsed value as an `Option<real>` parameter.
- The two-way `@Binding` between SliderPlane, SliderPlaneInner and the view that owns the value is not modelled: each class holds its own `value`, and the dirty flag the owner's setter raises is modelled in `ConfigView.SetCOffset` and `ConfigView.SetZInitial`.
- The @State mirrors of the pickers (`selectedFractal`, `colouring` in CanvasConfigView) are not modelled: the change handlers receive the new selection.
- FractalAppUI.CompensatedZoom: requires a non-zero display scale and new resolution scale, because real division by zero has no value; in Float64 it would give an infinity or NaN. The slider keeps resolutionScale in [1, 8].
- FractalAppUI.DragValue: requires a square of non-zero size (the square is fixed at 100 by 100 at FractalApp/FractalAppUI.swift:352); FractalAppUI.KnobPosition also requires maxVal ≠ minVal on each axis, which every caller's range satisfies.
- ContentView.PanStep: requires t ≠ 0 for the same reason as CompensatedZoom.
- FractalAppUI.TruncatedToInt: requires the value to be within Int's range, where Swift traps; the FPS slider keeps it in [5, 60].
- The older generation reaches its inputs through `model.fractal.input`, which no type in the shown files declares; FractalAppApp and ContentView flatten the fields they touch into one Model object each.
- Swift's `Int` is 64-bit: `Decimal.ParseInt` rejects values outside its range as the source does, but the model's own integers do not wrap.
- `init(roots:)` is declared over Float64 roots but callers pass `float2` values; the model takes complex roots, which covers the real case.
- `init(degree:)` asserts degree ≥ 0; the model takes a natural number.
- Logging is not modelled: the `print` of the frame index in the scroll monitor (FractalApp/ContentView.swift:42) has no counterpart in `ContentView.MetalView.OnScroll`.

## Findings

| source | as written | input that shows it | evidently intended | confidence | as-written member | corrected member |
|---|---|---|---|---|---|---|
| FractalApp/Newton.swift:52-57 | the first loop of `-` subtracts lhs from the zero buffer (`-=` where `+=` is meant), and the second loop then subtracts rhs, giving −(lhs + rhs) | p = 1 (the constant polynomial): p − p has constant term −2, not 0 | lhs − rhs, coefficient by coefficient | not executed | PolynomialAlgebra.MinusOfNonZeroConstant | PolynomialAlgebra.DifferenceUndoesPlus |

`Newton.Subtract` keeps the operator as written; `Polynomials.Difference` is the
corrected subtraction, with `PolynomialAlgebra.DifferenceOfItself` and
`PolynomialEval.EvalDifference` proved about it. No other operation in the core uses
`-`, so nothing else depends on the choice.
