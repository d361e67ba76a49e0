# ODL functionals and d.c. solvers in Dafny

This project models two parts of ODL (Operator Discretization Library):

- the arithmetic of **functionals** that its functional tests exercise;
- the three **difference-of-convex (d.c.) solvers** `dca`, `prox_dca` and `doubleprox_dc`, on the one-dimensional problem of their test.

Scalars are exact `real`s, so the model has no floating-point tolerances.

## Functionals

The base functional is `L2NormSquare` on a discretized space: `||x||²`, with gradient `2x`, proximal operator `x / (1 + 2σ)` and convex conjugate `||x||² / 4`. A space is `rn(n)` or a uniform discretization, and its inner product is weighted by the cell volume.

The functional datatype (`Functionals.Functional`) holds:

- the base functional;
- left and right scalar multiples `c * F` and `F * c`;
- the sum `F + G`;
- `F + c`;
- the translation `F.translate(y)`;
- the composition `F * Op` with a scaling operator;
- the four convex-conjugate combinators `ConvexConjugateTranslation`, `ConvexConjugateArgScaling`, `ConvexConjugateFuncScaling` and `ConvexConjugateLinearPerturb`.

Four operations apply to every functional, each defined by its own closed-form rule per combinator: value, gradient, proximal operator and conjugate. The directional derivative is defined by its own chain rule.

The builders in `Combinators` model the Python operators `+`, `*` and `translate`, and the conjugate combinator constructors. They check their operands at construction time. Each returns a `Result` that carries the error the library raises (`TypeError`, `ValueError` or `NotImplementedError`).

Every functional of this algebra is a quadratic `a<x,x> + <b,x> + c` (module `Quadratics`). `FunctionalLaws.QuadOf` computes those coefficients, and the laws proved about a single quadratic are lifted through it to every functional of the algebra:

- the exact Taylor expansion;
- the resolvent equation of the proximal operator;
- proximal minimality;
- the Fenchel–Young inequality;
- inverse gradients;
- the biconjugate.

## d.c. solvers

The problem is `min_x g(x) − h(x)`, where `h = |·|` (the l1 norm on `rn(1)`).

`g` is any functional of the algebra that has a proximal operator. The d.c. test uses `g = a/2 · ||· − b||²` (`DcProblem.Problem`).

The three solvers are methods over `array<real>`. Each overwrites only the array it is given, and after `niter` steps that array holds the `niter`-th iterate of its step function:

- `dca`: `x ← ∇g*(sign x)`.
- `prox_dca`: `x ← prox_{γg}(x + γ sign x)`.
- `doubleprox_dc` (with `φ = 0`):
  - `x ← prox_{γg}(x + γ K*y)`;
  - then `y ← clip(y + μ K x)`, the proximal operator of `h*`.

`DcScenario` replays the test: `a = b = 0.5`, start `−0.5`, `y = 3`, `γ = μ = 1`, `K = id`.

- **`dca`** reaches `−1.5` after one step.
- **`prox_dca`** equals `−1.5 + (2/3)^n` after `n` steps.
- **`doubleprox_dc`** equals `2.5 − (2/3)^n` after `n ≥ 1` steps.

So after 50 iterations each result is within `1e-6` of a stationary point in `{b − 1/a, 0, b + 1/a}`.

## Model

| member | source | states |
|---|---|---|
| Functionals.Evaluate | test/solvers/functional/functional_test.py:56-69 | calling F at a point succeeds exactly for an element of its domain, with the value F(x); an element of any other space, even one with as many coordinates, is a DomainError |
| Functionals.Prox | test/solvers/functional/functional_test.py:131-134 | the proximal operator exists exactly when the functional admits one; otherwise it fails with ValueError (non-positive multiple) or NotImplementedError (sum), and on success has the argument's size |
| Functionals.Conj | test/solvers/functional/functional_test.py:116-121 | the conjugate, when it exists, is a well-formed functional on the same domain; its failures are ValueError or NotImplementedError |
| FunctionalLaws.DerivativeIsInnerGradient | test/solvers/functional/functional_test.py:71-74 | for every functional of the algebra, the derivative at x in direction p equals the inner product of p with the gradient at x |
| FunctionalLaws.ConjOkIffProxDefined | test/solvers/functional/functional_test.py:116-134 | a functional has a conjugate exactly when it has a proximal operator, so both fail for a negative multiple and for a sum |
| ConvexAnalysis.Expansion | test/solvers/functional/functional_test.py:66-69 | F(x + p) = F(x) + F'(x)(p) + <a p, p> exactly, so the finite difference converges to the derivative |
| ConvexAnalysis.DerivativeHomogeneous | test/solvers/functional/functional_test.py:66-69 | the derivative at x is homogeneous in the direction: F'(x)(c p) = c F'(x)(p) |
| ConvexAnalysis.ProxResolvent | test/solvers/functional/functional_test.py:136-144 | prox_{σF}(x) = z if and only if z + σ∇F(z) = x |
| ConvexAnalysis.ProxMinimizes | test/solvers/functional/functional_test.py:136-144 | prox_{σF}(x) minimizes σF(w) + ½‖w − x‖² over all w, and is its only minimizer |
| ConvexAnalysis.YoungInequality | test/solvers/functional/functional_test.py:257-265 | F(x) + F*(y) >= <x, y>, with equality exactly when y = ∇F(x) |
| ConvexAnalysis.ConjGradientInverse | test/solvers/functional/functional_test.py:263-265 | ∇F* and ∇F are inverse to each other |
| ConvexAnalysis.ConjIsSupremum | test/solvers/functional/functional_test.py:257-261 | F*(y) bounds <x, y> − F(x) for every x and is attained at x = ∇F*(y) |
| ConvexAnalysis.Biconjugate | test/solvers/functional/functional_test.py:309-314 | the conjugate of the conjugate has the value and gradient of F |
| Combinators.Plus | test/solvers/functional/functional_test.py:193-235 | F + G succeeds exactly for a functional on the same domain, F + c exactly for a real c; everything else, a complex constant included, is a TypeError; the result keeps the domain |
| Combinators.RightMul | test/solvers/functional/functional_test.py:158-168 | F * other succeeds exactly for a real scalar, an operator into the domain of F, or an element of that domain; otherwise a TypeError |
| Combinators.LeftMul | test/solvers/functional/functional_test.py:350-364 | other * F succeeds exactly for a real scalar or an element of any space; otherwise a TypeError |
| Combinators.LeftVectorValue | test/solvers/functional/functional_test.py:354-364 | (y * F)(x) is the element y · F(x) of the space of y, of its size |
| Combinators.ProductValue | test/solvers/functional/functional_test.py:338-364 | evaluating what `F * other` or `other * F` built gives an element of the space of y, of its size, exactly for y * F, and a number for every other product |
| Combinators.Translate | test/solvers/functional/functional_test.py:278-285 | translate succeeds exactly for an element of the domain or a real number, which is broadcast to the constant element; a vector from another space is a TypeError |
| Combinators.ConjTranslate | test/solvers/functional/functional_test.py:378-391 | ConvexConjugateTranslation accepts exactly an element of the domain; a number or an element of another space is a TypeError |
| Combinators.ConjLinearPerturb | test/solvers/functional/functional_test.py:543-557 | ConvexConjugateLinearPerturb accepts exactly an element of the domain; a number or an element of another space is a TypeError |
| Combinators.ConjArgScale | test/solvers/functional/functional_test.py:440-446 | ConvexConjugateArgScaling fails with ValueError exactly for a zero scaling |
| Combinators.ConjFuncScale | test/solvers/functional/functional_test.py:490-497 | ConvexConjugateFuncScaling fails with ValueError exactly for a zero scaling |
| Combinators.ScalarMultiplication | test/solvers/functional/functional_test.py:91-114 | (F c)(x) = F(c x) and (c F)(x) = c F(x); their gradients are c∇F(c x) and c∇F(x), their derivatives c F'(c x)(p) and c F'(x)(p), and each derivative agrees with its gradient |
| Combinators.ScalarMultipleConjugate | test/solvers/functional/functional_test.py:116-129 | (c F)* fails with ValueError for c <= 0; for c > 0, (c F)*(x) = c F*(x / c) and (F c)*(x) = F*(x / c) |
| Combinators.ScalarMultipleProx | test/solvers/functional/functional_test.py:131-144 | prox of c F fails with ValueError for c <= 0; for c > 0, prox_{t(c F)} = prox_{(t c) F} and prox_{t(F c)}(x) = (1/c) prox_{(t c²) F}(c x) |
| Combinators.OperatorComposition | test/solvers/functional/functional_test.py:166-183 | F * Op is a functional with value F(Op x), gradient Op*(∇F(Op x)) and derivative <∇(F Op)(x), p> |
| Combinators.SumOfFunctionals | test/solvers/functional/functional_test.py:204-220 | F + G adds values and gradients; its prox and conjugate fail with NotImplementedError |
| Combinators.PlusScalar | test/solvers/functional/functional_test.py:235-265 | F + c adds c to the value and keeps gradient, derivative and prox; its conjugate is F* − c with the gradient of F* |
| Combinators.TranslationIdentities | test/solvers/functional/functional_test.py:284-323 | F.translate(y) has value F(x − y), gradient ∇F(x − y), derivative <∇F(x − y), p>, prox y + prox_{σF}(x − y), and conjugate ConvexConjugateTranslation(F*, y) |
| Combinators.RightVectorMultiplication | test/solvers/functional/functional_test.py:338-343 | F * y with y in the domain is the right vector multiple and evaluates to F(y·x); for a constant y = c it evaluates like F * c |
| Combinators.LeftVectorMultiplication | test/solvers/functional/functional_test.py:350-364 | y * F accepts y from any space and evaluates to y F(x); y * (F + G) evaluates to y F(x) + y G(x) |
| ConjugateClosedForms.QuarterSquareClosedForm | test/solvers/functional/functional_test.py:374-376 | the conjugate of ‖·‖² is ‖·‖²/4: value ‖x‖²/4, gradient x/2, prox x / (σ/2 + 1) |
| ConjugateClosedForms.ConjugateTranslationClosedForm | test/solvers/functional/functional_test.py:378-422 | the construction errors and the closed forms of (‖· − y‖²)*: value ‖x‖²/4 + <x, y>, gradient x/2 + y, derivative <p, x/2 + y>, prox (x − σy)/(σ/2 + 1); it equals the conjugate of the translation |
| ConjugateClosedForms.ConjugateArgScalingClosedForm | test/solvers/functional/functional_test.py:440-476 | scaling 0 is a ValueError; value ‖x‖²/(4s²), gradient x/(2s²), derivative <p, x/(2s²)>, prox x/(σ/(2s²) + 1) |
| ConjugateClosedForms.ArgScalingValue | test/solvers/functional/functional_test.py:451-454 | the value of the argument-scaled conjugate is ‖x‖²/(4s²) |
| ConjugateClosedForms.ArgScalingGrad | test/solvers/functional/functional_test.py:456-461 | its gradient is x/(2s²) |
| ConjugateClosedForms.ArgScalingProx | test/solvers/functional/functional_test.py:471-476 | its prox is x/(σ/(2s²) + 1) |
| ConjugateClosedForms.ConjugateFuncScalingClosedForm | test/solvers/functional/functional_test.py:490-528 | scaling 0 is a ValueError; value ‖x‖²/(4s), gradient x/(2s), derivative <p, x/(2s)>, prox x/(σ/(2s) + 1) for s > 0 and ValueError for s < 0 |
| ConjugateClosedForms.FuncScalingValue | test/solvers/functional/functional_test.py:502-506 | the value of the function-scaled conjugate is ‖x‖²/(4s) |
| ConjugateClosedForms.FuncScalingGrad | test/solvers/functional/functional_test.py:508-513 | its gradient is x/(2s) |
| ConjugateClosedForms.FuncScalingProx | test/solvers/functional/functional_test.py:523-528 | for s > 0 its prox is x/(σ/(2s) + 1) |
| ConjugateClosedForms.ConjugateLinearPerturbClosedForm | test/solvers/functional/functional_test.py:543-590 | the construction errors and the closed forms: value ‖x‖²/2 − ‖x − y‖²/4 + ‖y‖²/2 − <x, y>, gradient x/2 − y/2, derivative <p, x/2 − y/2>, prox (2x + σy)/(σ + 2) |
| ConjugateClosedForms.LinearPerturbProx | test/solvers/functional/functional_test.py:585-590 | y + (x − y)/(σ/2 + 1) equals (2x + σy)/(σ + 2) |
| DcSolvers.SignIsSubgradient | odl/test/solvers/nonsmooth/difference_convex_test.py:33-38 | sign(u) is a subgradient of abs at u: abs(z) >= abs(u) + sign(u)(z − u) for every z |
| DcSolvers.Sign | odl/test/solvers/nonsmooth/difference_convex_test.py:53 | each coordinate of sign(x) is a subgradient of abs at that coordinate of x |
| DcSolvers.ClipProjects | odl/test/solvers/nonsmooth/difference_convex_test.py:53 | clip(u) lies in [-1, 1] and is the point of [-1, 1] closest to u (the prox of the conjugate of the l1 norm) |
| DcSolvers.ClipFixedPoint | odl/test/solvers/nonsmooth/difference_convex_test.py:71 | if y = clip(y + μu) with μ > 0, then y is a subgradient of abs at u |
| DcSolvers.Dca | odl/test/solvers/nonsmooth/difference_convex_test.py:69 | after the call x holds the niter-th dca iterate of its old contents; nothing else changes |
| DcSolvers.ProxDca | odl/test/solvers/nonsmooth/difference_convex_test.py:70 | after the call x holds the niter-th prox_dca iterate of its old contents; nothing else changes |
| DcSolvers.DoubleProxDc | odl/test/solvers/nonsmooth/difference_convex_test.py:71 | after the call (x, y) holds the niter-th doubleprox_dc iterate of its old contents; both arrays change and nothing else |
| DcSolvers.DcaStepMinimizes | odl/test/solvers/nonsmooth/difference_convex_test.py:69 | the dca step minimizes the convex model g(z) − <z, sign x> over all z |
| DcSolvers.DcaFixedPoint | odl/test/solvers/nonsmooth/difference_convex_test.py:33-38 | x is a fixed point of the dca step exactly when ∇g(x) = sign(x) |
| DcSolvers.ProxDcaFixedPoint | odl/test/solvers/nonsmooth/difference_convex_test.py:33-38 | x is a fixed point of the prox_dca step exactly when ∇g(x) = sign(x) |
| DcSolvers.DoubleProxFixedPoint | odl/test/solvers/nonsmooth/difference_convex_test.py:71 | at a fixed point of the doubleprox_dc step, ∇g(x) = K*y and y is a subgradient of abs at K x |
| DcProblem.Problem | odl/test/solvers/nonsmooth/difference_convex_test.py:52 | g = a/2 ‖· − b‖² is well formed on rn(1) and has a prox when a > 0 |
| DcProblem.ProblemIsBuilt | odl/test/solvers/nonsmooth/difference_convex_test.py:52 | a / 2 * L2NormSquare(rn(1)).translate(b) builds exactly g, with the number b broadcast |
| DcProblem.ProblemValue | odl/test/solvers/nonsmooth/difference_convex_test.py:30 | g(x) = a/2 (x − b)² |
| DcProblem.ProblemGrad | odl/test/solvers/nonsmooth/difference_convex_test.py:33-36 | ∇g(x) = a(x − b) |
| DcProblem.ProxPoint | odl/test/solvers/nonsmooth/difference_convex_test.py:70 | the proximal point r of γg at z solves r − z + γa(r − b) = 0 |
| DcProblem.ProblemProx | odl/test/solvers/nonsmooth/difference_convex_test.py:70 | prox_{γg}(z) is that proximal point |
| DcProblem.ProblemConjGrad | odl/test/solvers/nonsmooth/difference_convex_test.py:69 | g has a conjugate, and ∇g*(v) = b + v/a |
| DcProblem.DcaStepOnProblem | odl/test/solvers/nonsmooth/difference_convex_test.py:69 | the dca step on g maps x to b + sign(x)/a |
| DcProblem.ProxDcaStepOnProblem | odl/test/solvers/nonsmooth/difference_convex_test.py:70 | the prox_dca step on g maps x to the proximal point at x + γ sign(x) |
| DcProblem.DoubleProxStepOnProblem | odl/test/solvers/nonsmooth/difference_convex_test.py:71 | with K = id, the doubleprox_dc step maps (x, y) to (x', clip(y + μ x')) with x' the proximal point at x + γy |
| DcProblem.StationaryCases | odl/test/solvers/nonsmooth/difference_convex_test.py:32-38 | x is stationary exactly when x > 0 and x = b + 1/a, x < 0 and x = b − 1/a, or x = 0 and b − 1/a <= 0 <= b + 1/a |
| DcProblem.StationarySets | odl/test/solvers/nonsmooth/difference_convex_test.py:40-45 | the stationary set is exactly {b − 1/a}, {−2/a, 0}, {b − 1/a, 0, b + 1/a}, {0, 2/a} or {b + 1/a}, by the five ranges of b |
| DcProblem.FixedPointsStationary | odl/test/solvers/nonsmooth/difference_convex_test.py:69-70 | every fixed point of the dca and prox_dca steps on g is stationary |
| DcProblem.DoubleProxFixedPointStationary | odl/test/solvers/nonsmooth/difference_convex_test.py:71 | the x part of every fixed point of the doubleprox_dc step on g is stationary |
| DcScenario.PowBound | odl/test/solvers/nonsmooth/difference_convex_test.py:78-80 | (2/3)^50 <= 1e-6 |
| DcScenario.ProxPointToward | odl/test/solvers/nonsmooth/difference_convex_test.py:70 | with the subgradient s fixed, the proximal step moves x toward b + s/a, leaving the fraction 1/(1 + γa) of the gap |
| DcScenario.DcaSettles | odl/test/solvers/nonsmooth/difference_convex_test.py:69 | from x of sign s whose target b + s/a has sign s, dca reaches the target in one step and stays there |
| DcScenario.ProxDcaContracts | odl/test/solvers/nonsmooth/difference_convex_test.py:70 | under the same condition, after n prox_dca steps the gap to b + s/a is the gap at the start times (1/(1 + γa))^n |
| DcScenario.DoubleProxContracts | odl/test/solvers/nonsmooth/difference_convex_test.py:71 | with dual s = ±1 and x not of sign −s, the dual stays s and x contracts toward b + s/a like prox_dca |
| DcScenario.Dist | odl/test/solvers/nonsmooth/difference_convex_test.py:74-76 | the distance to the expected points is at most the distance to each and is attained by one |
| DcScenario.ExpectedAreStationary | odl/test/solvers/nonsmooth/difference_convex_test.py:72 | for −1/a < b < 1/a the expected array holds exactly the stationary points |
| DcScenario.DcaScenario | odl/test/solvers/nonsmooth/difference_convex_test.py:69 | with a = b = 0.5 from −0.5, dca is at −1.5 after any n >= 1 steps |
| DcScenario.ProxDcaScenario | odl/test/solvers/nonsmooth/difference_convex_test.py:70 | with γ = 1, prox_dca is at −1.5 + (2/3)^n after n steps |
| DcScenario.DoubleProxScenario | odl/test/solvers/nonsmooth/difference_convex_test.py:63-71 | with y = 3, γ = μ = 1 and K = id, doubleprox_dc is at (2.5 − (2/3)^n, 1) after n >= 1 steps |
| DcScenario.ScenarioDistances | odl/test/solvers/nonsmooth/difference_convex_test.py:74-80 | end points −1.5, −1.5 + (2/3)^n and 2.5 − (2/3)^n with n >= 50 all lie within 1e-6 of the expected points |
| DcScenario.Copy | odl/test/solvers/nonsmooth/difference_convex_test.py:58-60 | a copy is a fresh array with the same contents, so the solvers' copies do not alias |
| DcScenario.DcaOnCopy | odl/test/solvers/nonsmooth/difference_convex_test.py:58-69 | dca on a copy of x = −0.5 ends at −1.5 and leaves x alone |
| DcScenario.ProxDcaOnCopy | odl/test/solvers/nonsmooth/difference_convex_test.py:59-70 | prox_dca on a copy ends at −1.5 + (2/3)^niter |
| DcScenario.DoubleProxOnCopy | odl/test/solvers/nonsmooth/difference_convex_test.py:60-71 | doubleprox_dc on a copy with y = 3 ends at 2.5 − (2/3)^niter |
| DcScenario.DcTestScenario | odl/test/solvers/nonsmooth/difference_convex_test.py:48-80 | the whole test: the three results as above, the original x untouched, and for niter >= 50 all three distances <= 1e-6 |

## Left out

- L2Norm, L1Norm and ZeroFunctional as members of the functional algebra: the tests use L2Norm and L1Norm as sample operands, but the norm involves a square root and the l1 norm is not differentiable. The algebra has `L2NormSquare` as its only base functional, and every law is proved for all functionals built from it.
- Combinators.ScalarMultiplication: proved for functionals of the algebra, not for the L2Norm operand the test uses (no square root in the model).
- Combinators.OperatorComposition: the only operators are scaling operators on one space (the identity is scaling by 1); general operators and their adjoints are not modelled.
- Combinators.LeftVectorMultiplication: the value of y * F is proved over sums of functionals; the test's L1Norm operand is not in the algebra.
- The finite-difference check of the gradient and every `places`/`approx` tolerance: floating-point checks with no meaning over exact reals. `ConvexAnalysis.Expansion` and `ConvexAnalysis.DerivativeHomogeneous` state the exact fact they approximate.
- Random inputs (`np.random`, `example_element`): every lemma holds for all inputs that satisfy its requires.
- Complex scalars: only their rejection by `F + c` is modelled (a `ComplexScalar` operand).
- The helpers `proximal_translation` and `proximal_quadratic_perturbation` are not part of this model. Their results appear only through the closed forms they should equal.
- The `isinstance` checks on the class of the result: the model tells results apart by constructor (`FunctionalProduct`, `RightVectorMult`, `LeftVectorMult`).
- The solver library source (`odl.solvers.dca`, `prox_dca`, `doubleprox_dc`) is not part of this model. The step rules are the standard ones, stated in `DcSolvers`:
  - `h` is fixed to the l1 norm, the only `h` the test passes;
  - `φ` in `doubleprox_dc` is the zero functional;
  - the dca step is taken as `∇g*` applied to the sign.
- Functionals.Prox: for a `ConvexConjugateFuncScaling` with a negative scaling, and for the right scalar multiple `F * c` with `c <= 0`, the model fails with ValueError. The test draws the scaling with `np.random.rand()`, checks only that 0 is rejected at construction (`functional_test.py:490-491`) and multiplies `F * c` only by positive numbers, so these error cases are the model's choice, not something the source promises.
- Functionals.Conj: the same choice for the conjugate: ValueError for a negative `ConvexConjugateFuncScaling` scaling and for `F * c` with `c <= 0`.
- Points as coordinates: `Value`, `Grad`, `Derivative` and `Prox` take the coordinates of a point of the domain. The check that the point belongs to the domain, and its DomainError, are modelled once, by `Functionals.Evaluate`.
- DcSolvers.DoubleProxDc: `K` is a scaling operator; the test passes the identity.
- Callbacks and any other output of the solvers: not modelled.
- DcScenario.DcTestScenario: `niter` is a parameter; the test's value 50 is the case `niter >= 50` of its contract.
- The astra, projection example and tomography utility files are not part of this model: they are foreign-library bindings, I/O and re-exports.

## Notes on the source

- The test comment at `test/solvers/functional/functional_test.py:580` writes the derivative of the linearly perturbed conjugate with `+ perturbation / 2`. The assertion below it uses `−`, and the model proves the `−` form.
- A number passed to `translate` (as in `difference_convex_test.py:52`) is broadcast to the constant element. The conjugate-translation and linear-perturbation constructors reject numbers.
