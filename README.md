# xbob.learn.libsvm bindings, modelled in Dafny

This project models the Python bindings of `xbob.learn.libsvm` and the C++ trainer they wrap. The bindings are built over libsvm. The model covers three parts:

- **The `Machine` type.** This is its prediction entry points, `forward`/`predict_class`, `predict_class_and_scores` and `predict_class_and_probabilities`, plus construction, `shape`, `labels`, and the `input_subtract`/`input_divide` attributes. Each entry point first checks:
  - the input's element type, rank and width against the machine's input size;
  - any output arrays the caller supplies, against the exact shapes expected.

  It then allocates the outputs the caller left out. Last, it fills them row by row, with one call per input vector to libsvm's single-vector prediction.
- **The `Trainer` type.** This is its construction from keyword arguments, its attributes, and the validation `train` makes before it hands the class data to the C++ trainer.
- **The C++ `Trainer` class.** This is one libsvm parameter record with a getter and a setter per field, the label assignment its `train` documents, and the column-wise scaling of the normalising `train`.

Modules:

- `Wrappers` holds `Option` and `Result`.
- `NdArrays` holds the arrays that cross the Python boundary:
  - an input is a value, and is only read;
  - an output buffer holds a Dafny `array` or `array2`, and is written in place;
  - an array of any other rank is represented so that it can be refused.
- `PyObjects` holds Python objects that are not arrays, and the C-API conversions applied to them: truth value, `Py_ssize_t` and `double`.
- `SvmParams` models the C++ trainer. Its getters are Dafny functions, so they are read-only by construction. Each setter states that it changes its own field and nothing else.
- `MachineBinding` holds the shape checks as pure functions, each with an if-and-only-if against a declarative acceptance predicate. It also holds the `Machine` class, whose methods fill the output arrays.
- `TrainerBinding` holds the `Trainer` Python type.

The libsvm solver is opaque. The machine holds it as three functions from the current scaling and one feature vector to a class, or to a class and a vector of values. The only thing assumed about the solver is the length of that vector. There are `NumberOfScores(output size)` scores: 1 below two outputs, and one per pair of outputs otherwise. There is one probability per class. The methods state this as a precondition.

Two places in the trainer source need a word on how they are modelled:

- `pytrainer.cpp` and `trainer.h` disagree.
  - The binding calls `getMachineType`/`setMachineType` where the header declares `getSvmType`/`setSvmType`.
  - At xbob/learn/libsvm/pytrainer.cpp:123-124 the binding passes six arguments positionally. The header constructor (xbob/learn/libsvm/include/xbob.learn.libsvm/trainer.h:36-49) takes them in a different order.

  Each file is modelled on its own terms. The binding's constructor arguments reach the C++ constructor by parameter name (`NewTrainerObject`), which is what the binding's documentation describes. "## Left out" says what the positional call would do instead.
- The element-type checks on `subtract` and `divide` (xbob/learn/libsvm/pytrainer.cpp:478-484) set a Python error but do not return. Training still goes ahead. The model records this as an error left pending on a dispatched call, so these checks do not stop training. When both vectors are wrong, the later message wins.

## Model

| member | source | states |
|---|---|---|
| SvmParams.Trainer.constructor | xbob/learn/libsvm/include/xbob.learn.libsvm/trainer.h:36-49 | The parameter record holds exactly the twelve constructor arguments. Each argument has the default of `svm-train`. |
| SvmParams.NewDefaultTrainer | xbob/learn/libsvm/include/xbob.learn.libsvm/trainer.h:32-49 | A trainer built with no arguments holds C_SVC, RBF, degree 3, gamma 0, coef0 0, cache 100 MB, eps 0.001, C 1, nu 0.5, p 0.1, shrinking on and probability off. |
| SvmParams.Trainer.SetSvmType | xbob/learn/libsvm/include/xbob.learn.libsvm/trainer.h:80 | Reading the type back gives the value set. Every other parameter is unchanged. |
| SvmParams.Trainer.SetKernelType | xbob/learn/libsvm/include/xbob.learn.libsvm/trainer.h:83 | Reading the kernel back gives the value set. Every other parameter is unchanged. |
| SvmParams.Trainer.SetDegree | xbob/learn/libsvm/include/xbob.learn.libsvm/trainer.h:86 | Reading the degree back gives the value set. Every other parameter is unchanged. |
| SvmParams.Trainer.SetGamma | xbob/learn/libsvm/include/xbob.learn.libsvm/trainer.h:89 | Reading gamma back gives the value set. Every other parameter is unchanged. |
| SvmParams.Trainer.SetCoef0 | xbob/learn/libsvm/include/xbob.learn.libsvm/trainer.h:92 | Reading coef0 back gives the value set. Every other parameter is unchanged. |
| SvmParams.Trainer.SetCacheSizeInMb | xbob/learn/libsvm/include/xbob.learn.libsvm/trainer.h:95 | Reading the cache size back gives the value set. Every other parameter is unchanged. |
| SvmParams.Trainer.SetStopEpsilon | xbob/learn/libsvm/include/xbob.learn.libsvm/trainer.h:98 | Reading eps back gives the value set. Every other parameter is unchanged. |
| SvmParams.Trainer.SetCost | xbob/learn/libsvm/include/xbob.learn.libsvm/trainer.h:101 | Reading C back gives the value set. Every other parameter is unchanged. |
| SvmParams.Trainer.SetNu | xbob/learn/libsvm/include/xbob.learn.libsvm/trainer.h:104 | Reading nu back gives the value set. Every other parameter is unchanged. |
| SvmParams.Trainer.SetLossEpsilonSVR | xbob/learn/libsvm/include/xbob.learn.libsvm/trainer.h:107 | Reading p back gives the value set. Every other parameter is unchanged. |
| SvmParams.Trainer.SetUseShrinking | xbob/learn/libsvm/include/xbob.learn.libsvm/trainer.h:110 | Reading the flag back gives the value set. Every other parameter is unchanged. |
| SvmParams.Trainer.SetProbabilityEstimates | xbob/learn/libsvm/include/xbob.learn.libsvm/trainer.h:114-115 | Reading the flag back gives the value set. Every other parameter is unchanged. |
| SvmParams.AssignLabels | xbob/learn/libsvm/include/xbob.learn.libsvm/trainer.h:58-62 | There is one label per class group, and the labels strictly increase in group order. |
| SvmParams.AssignLabelsConvention | xbob/learn/libsvm/include/xbob.learn.libsvm/trainer.h:58-62 | Two groups get -1 and +1. With more than two, group i gets i + 1, so labels run 1, 2, 3, … in input order. |
| SvmParams.LabelIndex | xbob/learn/libsvm/include/xbob.learn.libsvm/trainer.h:58-62 | A label names a group only when that group exists. |
| SvmParams.LabelTableBijective | xbob/learn/libsvm/include/xbob.learn.libsvm/trainer.h:58-62 | Label assignment is a bijection in both directions: the label of group i leads back to i, and a label that leads to i is the label of i. |
| SvmParams.Normalize | xbob/learn/libsvm/include/xbob.learn.libsvm/trainer.h:67-74 | Scaling a vector column-wise as d' = (d - subtract) / divide keeps its length. Undoing the scaling (d' * divide + subtract) gives the vector back. |
| SvmParams.NormalizeIdentity | xbob/learn/libsvm/pymachine.cpp:48-51 | The default scaling (subtract 0, divide by 1) fits every vector and leaves it as it is. |
| SvmParams.NormalizeGroups | xbob/learn/libsvm/include/xbob.learn.libsvm/trainer.h:67-74 | Every row of every class group is scaled. The group and row counts are kept, and undoing the scaling gives each row back. |
| PyObjects.IsTrue | xbob/learn/libsvm/pytrainer.cpp:119-120 | The result is 1 or 0, or -1 exactly when the object's truth test raises. A boolean is true exactly when it is `True`, and `None` is false. |
| PyObjects.AsSsize | xbob/learn/libsvm/pytrainer.cpp:194-199 | A boolean converts to 1 or 0, and an in-range integer to its value. An out-of-range integer gives an OverflowError, anything else gives a TypeError, and both return -1. |
| PyObjects.AsDouble | xbob/learn/libsvm/pytrainer.cpp:211-216 | Floats, integers and booleans convert: a float to itself, an integer to its value, a boolean to 1.0 or 0.0. Anything else gives a TypeError and returns -1.0. |
| MachineBinding.NumberOfScores | xbob/learn/libsvm/pymachine.cpp:628-629 | The score count is 1 below two outputs. With two or more outputs, twice the count is N(N-1). |
| MachineBinding.ScoresArePairs | xbob/learn/libsvm/pymachine.cpp:586-594 | With N >= 2 outputs there is one score per pair of classes. The pairs are exactly the (a, b) with a < b < N. |
| MachineBinding.CheckForward | xbob/learn/libsvm/pymachine.cpp:494-533 | The checks pass exactly when all of these hold: the input is float64, rank 1 or 2, and as wide as the machine's input; any class output is 1D int64, with one entry for a vector or one per row for a matrix. Otherwise they name the first failing check, in source order: input type, class type, input rank, class rank, input width, class length. The failure is raised as a TypeError exactly when an element type or the input's rank is wrong, and as a RuntimeError otherwise. |
| MachineBinding.CheckWithSecondary | xbob/learn/libsvm/pymachine.cpp:631-692 | The same check for the two-output entry points (also xbob/learn/libsvm/pymachine.cpp:805-866). It passes exactly when the input and class output pass and the score or probability output is float64, of the input's rank, `width` columns wide, with the input's rows. Otherwise the fault named is the first failing check, in source order: the three element types, the input rank, the class rank, the value rank, the input width, the class length, the value width, and the value rows. The failure is raised as a TypeError exactly when an element type or the input's rank is wrong, and as a RuntimeError otherwise. |
| MachineBinding.WrongWidthRefused | xbob/learn/libsvm/pymachine.cpp:514-518 | A vector whose length is not the machine's input size is refused, whatever output is supplied. |
| MachineBinding.InitRoute | xbob/learn/libsvm/pymachine.cpp:132-157 | Exactly one argument is accepted, positional or keyword. It is read as an HDF5 file exactly when it is one, and as a model file path otherwise. |
| MachineBinding.Machine.FromModel | xbob/learn/libsvm/pymachine.cpp:48-51 | A machine read from a model file has subtraction 0 and division 1 for every input. |
| MachineBinding.Machine.Shape | xbob/learn/libsvm/pymachine.cpp:259-263 | The shape is (input size, output size). A float64 vector of the advertised input size passes the input checks. |
| MachineBinding.Machine.GetLabels | xbob/learn/libsvm/pymachine.cpp:268-275 | The list holds the label of every class index, in index order. |
| MachineBinding.Machine.SetInputSubtraction | xbob/learn/libsvm/pymachine.cpp:184-210 | A 1D float64 array replaces the subtraction vector. Anything else is refused with a type error and changes nothing. |
| MachineBinding.Machine.SetInputDivision | xbob/learn/libsvm/pymachine.cpp:224-250 | A 1D float64 array replaces the division vector. Anything else is refused with a type error and changes nothing. |
| MachineBinding.Machine.Forward | xbob/learn/libsvm/pymachine.cpp:476-571 | It fails exactly when the checks fail, and then nothing is written and the solver is not called. Otherwise entry k is the solver's class for input vector k. The vectors go to the solver in increasing k. A supplied output is the array filled, and a missing one is allocated with one entry per vector. |
| MachineBinding.Machine.Allocate | xbob/learn/libsvm/pymachine.cpp:694-714 | A supplied output is used as is. A missing class output is a fresh array with one entry per vector. A missing value output is fresh, with `width` entries, or rows × `width` for a matrix. |
| MachineBinding.Machine.FillRows | xbob/learn/libsvm/pymachine.cpp:716-734 | After the loop, for each input vector k, class entry k and value row k are what the solver gives for vector k. The vectors go to the solver in row order. |
| MachineBinding.Machine.PredictClassAndScores | xbob/learn/libsvm/pymachine.cpp:605-752 | It fails exactly when the checks fail, with the count of pairwise scores as width, and then writes nothing and calls nothing. Otherwise both outputs hold the solver's class and scores for every input vector, in row order. |
| MachineBinding.Machine.PredictClassAndProbabilities | xbob/learn/libsvm/pymachine.cpp:779-926 | A machine without probability support refuses with a RuntimeError before anything else. Otherwise it behaves as the score variant, with one probability per class (the number of classes, not the output size) as width. |
| TrainerBinding.ParseMachineType | xbob/learn/libsvm/pytrainer.cpp:36-43 | An accepted name is the name of the type it gives. |
| TrainerBinding.MachineTypeNames | xbob/learn/libsvm/pytrainer.cpp:36-43 | A name is accepted as a type exactly when it is that type's name. |
| TrainerBinding.ParseKernelType | xbob/learn/libsvm/pytrainer.cpp:45-52 | An accepted name is the name of the kernel it gives. |
| TrainerBinding.KernelTypeNames | xbob/learn/libsvm/pytrainer.cpp:45-52 | A name is accepted as a kernel exactly when it is that kernel's name. |
| TrainerBinding.MachineTypeOf | xbob/learn/libsvm/pytrainer.cpp:159-165 | An object is accepted exactly when it is a string naming a machine type, and the type's name is that string. A non-string is refused as not a string. |
| TrainerBinding.KernelTypeOf | xbob/learn/libsvm/pytrainer.cpp:176-182 | An object is accepted exactly when it is a string naming a kernel type, and the kernel's name is that string. A non-string is refused as not a string. |
| TrainerBinding.WrapInt32 | xbob/learn/libsvm/pytrainer.cpp:196 | The stored `int` is congruent to the `Py_ssize_t` modulo 2^32. It equals the `Py_ssize_t` whenever that fits in an `int`. |
| TrainerBinding.InitParameters | xbob/learn/libsvm/pytrainer.cpp:87-120 | Construction is accepted exactly when the types are strings, the sizes are numbers and both names are known. The record then holds the named types, the given or default cache size and eps, and the truth values of the flags (shrinking on, probability off by default). A flag whose truth test raises counts as true. Every parameter the constructor does not take keeps its default. |
| TrainerBinding.InitPending | xbob/learn/libsvm/pytrainer.cpp:119-120 | An error is left pending exactly when the truth test of a given `shrinking` or `probability` raises. |
| TrainerBinding.InitWithoutArguments | xbob/learn/libsvm/pytrainer.cpp:102-107 | `Trainer()` gives exactly the `svm-train` defaults. |
| TrainerBinding.InitByName | xbob/learn/libsvm/pytrainer.cpp:87-137 | Naming a machine type and a kernel selects exactly those. Every other parameter keeps its default. |
| TrainerBinding.NewTrainerObject | xbob/learn/libsvm/pytrainer.cpp:87-137 | It fails exactly when the arguments are refused, with the same error. Otherwise it gives a fresh trainer whose C++ parameters are those the arguments give, with the error of a raising truth test left pending. |
| TrainerBinding.ItemFault | xbob/learn/libsvm/pytrainer.cpp:446-455 | A bad item's error names its position. It says "not convertible" exactly when the item could not be made an array, and "not 2D float64" otherwise. |
| TrainerBinding.CollectClassArrays | xbob/learn/libsvm/pytrainer.cpp:441-461 | Collection succeeds exactly when every item is a 2D float64 array and the iteration does not raise. The arrays are then kept in input order. Otherwise the error names the first bad item's position, or the iteration error comes after all the items. |
| TrainerBinding.CheckTrainArguments | xbob/learn/libsvm/pytrainer.cpp:463-476 | It passes exactly when there are two classes or more and `subtract` and `divide` are both given or both absent. Each error is raised in source order. |
| TrainerBinding.PendingDTypeError | xbob/learn/libsvm/pytrainer.cpp:478-484 | No error is left pending exactly when every given scaling vector is float64. A wrong `divide` leaves the `divide` error, and a wrong `subtract` alone leaves the `subtract` error. |
| TrainerBinding.TrainingSamples | xbob/learn/libsvm/pytrainer.cpp:396-400 | The plain call trains on the class rows as given. The normalising call trains on every row scaled by (d - subtract) / divide, and undoing the scaling gives each row back. Samples exist exactly when the scaling vectors fit. |
| TrainerBinding.TrainerObject.MachineTypeAttr | xbob/learn/libsvm/pytrainer.cpp:154-157 | The attribute is a name that the setter accepts back as the stored type. |
| TrainerBinding.TrainerObject.KernelTypeAttr | xbob/learn/libsvm/pytrainer.cpp:171-174 | The attribute is a name that the setter accepts back as the stored kernel. |
| TrainerBinding.TrainerObject.DegreeAttr | xbob/learn/libsvm/pytrainer.cpp:189-192 | The attribute converts back, without error, to the stored degree. |
| TrainerBinding.TrainerObject.GammaAttr | xbob/learn/libsvm/pytrainer.cpp:206-209 | The attribute converts back, without error, to the stored gamma. |
| TrainerBinding.TrainerObject.Coef0Attr | xbob/learn/libsvm/pytrainer.cpp:223-226 | The attribute converts back, without error, to the stored coef0. |
| TrainerBinding.TrainerObject.ProbabilityAttr | xbob/learn/libsvm/pytrainer.cpp:240-244 | The attribute is a boolean that is true exactly when the stored flag is. |
| TrainerBinding.TrainerObject.ShrinkingAttr | xbob/learn/libsvm/pytrainer.cpp:257-261 | The attribute is a boolean that is true exactly when the stored flag is. |
| TrainerBinding.TrainerObject.SetMachineType | xbob/learn/libsvm/pytrainer.cpp:159-165 | A known name replaces the type and nothing else, and reading the attribute then gives that name. Anything else is refused and changes nothing. |
| TrainerBinding.TrainerObject.SetKernelType | xbob/learn/libsvm/pytrainer.cpp:176-182 | A known name replaces the kernel and nothing else, and reading the attribute then gives that name. Anything else is refused and changes nothing. |
| TrainerBinding.TrainerObject.SetDegree | xbob/learn/libsvm/pytrainer.cpp:194-199 | The converted value, narrowed to an `int`, is stored before the error is checked, so a failed conversion stores -1 and reports the error. An `int`-sized integer reads back as itself. |
| TrainerBinding.TrainerObject.SetGamma | xbob/learn/libsvm/pytrainer.cpp:211-216 | The converted value is stored before the error is checked, so a failed conversion stores -1.0. A float reads back as itself. |
| TrainerBinding.TrainerObject.SetCoef0 | xbob/learn/libsvm/pytrainer.cpp:228-233 | The converted value is stored before the error is checked, so a failed conversion stores -1.0. A float reads back as itself. |
| TrainerBinding.TrainerObject.SetProbability | xbob/learn/libsvm/pytrainer.cpp:246-251 | The flag becomes the object's truth value, and the getter then reads that value back. A truth test that raises counts as true, and its exception is left pending. |
| TrainerBinding.TrainerObject.SetShrinking | xbob/learn/libsvm/pytrainer.cpp:263-268 | The flag becomes the object's truth value, and the getter then reads that value back. A truth test that raises counts as true, and its exception is left pending. |
| TrainerBinding.TrainerObject.Train | xbob/learn/libsvm/pytrainer.cpp:404-511 | Checks run in source order: iterability, then each item, then the iteration error, then the class count, then whether both scaling vectors are given. A dispatched call carries the trainer's parameters, the arrays in input order, and any pending element-type error. It reaches the normalising `train` exactly when the scaling vectors are given. |

## Left out

- The libsvm solver is left out, along with the whole arithmetic of prediction and of training. Prediction is opaque functions, and training is modelled up to the call it dispatches. How the machine applies its scaling inside prediction is also left out, because machine.cpp is not part of this model.
- Solver exceptions are left out. The C++ calls can throw in the middle of a batch, leaving the earlier rows written. The model's solver is total.
- Loading from and saving to model files and HDF5 files is left out, because it is file I/O. `InitRoute` stops at the choice of loader.
- Python reference counting, keyword-argument parsing for the array arguments, `repr`/`str`, and the type tables are left out. So are pyfile.cpp, main.cpp and setup.py. The functions that convert between machine or kernel types and their names are not part of this model. The accepted names come from the documented options, and the error classes for a non-string or an unknown name are not modelled.
- The machine's own checks on the scaling vectors it is given (their length, for example) are left out. The C++ machine is not part of this model.
- The C++ trainer's check that every class array has the same number of columns is left out. The binding documents it but does not make it itself. `TrainingSamples` therefore returns None when the scaling vectors do not fit the rows.
- Machine attributes other than `shape` and `labels` are left out (machine type, kernel type, degree, gamma, coef0, probability support). They are plain reads of a C++ machine that is not part of this model.
- SvmParams.Normalize: it requires non-zero divisors. IEEE infinities and NaNs from a zero divisor are not modelled, and doubles are exact `real`s throughout.
- PyObjects.AsDouble: it does not model rounding of large integers to `double`, their OverflowError, or objects with `__float__`/`__index__` (`PyOther` has neither).
- PyObjects.AsSsize: it assumes a 64-bit `Py_ssize_t`.
- TrainerBinding.InitParameters: a string argument with an embedded NUL (a ValueError from the argument parser), too many positional arguments and unknown keywords are not modelled. Arguments are taken by name.
- TrainerBinding.NewTrainerObject: it passes the six values by parameter name. The positional call at xbob/learn/libsvm/pytrainer.cpp:123-124 against the constructor at xbob/learn/libsvm/include/xbob.learn.libsvm/trainer.h:36-49 is not modelled. That call would set the degree to the cache size truncated to an `int`, gamma to eps, coef0 to the shrinking flag (0 or 1) and the cache size to the probability flag (0 or 1). It would also leave eps, C, nu, p, shrinking and probability at their defaults.
- The setter glue is left out. The functions are registered as attribute setters, but they return an object, and they are called with no value on `del`.
- SvmParams.AssignLabels: it requires two groups or more. The header also allows a single array, for regression (xbob/learn/libsvm/include/xbob.learn.libsvm/trainer.h:61-62), but gives no label for it, so that case is not modelled. The binding refuses fewer than two arrays before training (xbob/learn/libsvm/pytrainer.cpp:463-466), so every call it makes meets this requirement.
