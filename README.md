# ML-Klasifikacija in Dafny

A Dafny model of the classification core of ML-Klasifikacija, with proofs about it.

The core has four parts:

- **The MLP (ver2).**
  - The activation functions, `Neuron`, `Layer` and the standalone network `MLPKlasifikatorMreza`.
  - The classifier `MLPKlasifikator`, which is either reassembled from stored parts or built untrained from a data set's metadata. It turns the network's output into a class name.
  - The one-hot row encoder `MojDataSetHelperMLP`.
  - The DTO mapping of `MLPSerijalizacijaHelper`, which saves and reloads a classifier.
- **The random forest (ver2).** It builds bootstrap samples, picks each tree's attributes and takes a majority vote.
- **The Graphviz DOT writer (ver2).** `GraphvizVisualizerHelper.MakeDotFile` prints a decision tree as DOT text and chooses the `.dot` output path.
- **The first-generation data set (`ML-Klasifikacija.Model`).**
  - The `MojDataSet` constructor, the train/test split and the accuracy evaluation.
  - The same class again, in its older copy whose `Evaluiraj` is not implemented.
  - The decision-tree stub `StabloKlasifikator`.

## How things are modelled

- **Numbers.** `double` is `real`. `Math.Exp` is a parameter `exp`, a function that is positive everywhere. Tanh and Sigmoid are written over `exp`. Softmax subtracts the maximum before exponentiating, as the source does.
- **Randomness.** `Random.NextDouble()` is a supplied draw in [0, 1). `Random.Next(n)` is the floor of n times such a draw. Each `OrderBy(_ => random.Next())` shuffle is a supplied permutation of positions.
- **Objects that change in place.**
  - `Neuron`, `Layer`, `MLPKlasifikatorMreza`, `MLPKlasifikator`, `RandomForestKlasifikator` and the DOT printer's state are classes.
  - Their methods carry `modifies` clauses. A neuron's weights are an `array<real>`.
- **Value specifications.** Each imperative method is proved against a value-level function:
  - `NetworkSpec.Naprijed` is the forward pass.
  - `DotWriter.Ispis` is the printed lines.
  - `DotWriter.Dodijeli` is the id dictionary.
  - `ClassicDataSet.Tacni` is the correct-prediction count.
  - `MLPSerialization.UcitaniSlojevi` is the loaded layers.
- **Exceptions** become `Result` values with the exception's kind.
- **Null arguments** become `Option`.
- **Passing a value.** The DOT writer keys its node-id dictionary by a node's path from the root. A C# tree owns its children, so the path picks out the same node as the reference does.

## Model

| member | source | states |
|---|---|---|
| Activations.ReLU | ver2/DecisionTree.Model/Model/MLP/Helper/AktivacijskeFunkcijeHelper.cs:18 | The result is non-negative, at least the input, and either 0 or the input. |
| Activations.LeakyReLU | ver2/DecisionTree.Model/Model/MLP/Helper/AktivacijskeFunkcijeHelper.cs:27-28 | A positive input passes unchanged; any other input is scaled by alpha (default 0.01). |
| Activations.LeakyReLUBetween | ver2/DecisionTree.Model/Model/MLP/Helper/AktivacijskeFunkcijeHelper.cs:18-28 | For alpha in [0, 1], LeakyReLU lies between the input and ReLU. It equals ReLU when alpha is 0. |
| Activations.Tanh | ver2/DecisionTree.Model/Model/MLP/Helper/AktivacijskeFunkcijeHelper.cs:36-37 | The result lies strictly between -1 and 1. |
| Activations.Sigmoid | ver2/DecisionTree.Model/Model/MLP/Helper/AktivacijskeFunkcijeHelper.cs:52-53 | The result lies strictly between 0 and 1. |
| Activations.SigmoidAtZero | ver2/DecisionTree.Model/Model/MLP/Helper/AktivacijskeFunkcijeHelper.cs:52-53 | Sigmoid(0) is 0.5 when exp(0) is 1. |
| Activations.Linear | ver2/DecisionTree.Model/Model/MLP/Helper/AktivacijskeFunkcijeHelper.cs:61 | Returns its input. |
| Activations.ShiftedExps | ver2/DecisionTree.Model/Model/MLP/Helper/AktivacijskeFunkcijeHelper.cs:71-72 | Gives one strictly positive exponential per input. |
| Activations.Softmax | ver2/DecisionTree.Model/Model/MLP/Helper/AktivacijskeFunkcijeHelper.cs:69-75 | An empty input fails like `Max()` on an empty array. Otherwise it returns one entry per input, each in (0, 1], summing to 1. |
| Activations.SoftmaxProbabilities | ver2/DecisionTree.Model/Model/MLP/Helper/AktivacijskeFunkcijeHelper.cs:73-74 | Dividing positive exponentials by their sum gives a probability vector. |
| NetworkSpec.SlojIzlaz | ver2/DecisionTree.Model/Model/MLP/MLPMreza/Layer.cs:19-22 | A layer gives one output per neuron. |
| NetworkSpec.Naprijed | ver2/DecisionTree.Model/Model/MLP/MLPMreza/MLPKlasifikatorMreza.cs:34-38 | The forward pass is as wide as the last layer, or as the input when there are no layers. |
| NetworkSpec.NaprijedKorak | ver2/DecisionTree.Model/Model/MLP/MLPMreza/MLPKlasifikatorMreza.cs:35-38 | The pass through the first i+1 layers is layer i applied to the pass through the first i. |
| NetworkSpec.IzlaziSlojeva | ver2/DecisionTree.Model/Model/MLP/MLPMreza/MLPKlasifikatorMreza.cs:34-38 | There is one output per layer, as wide as the layer, and the last one is the forward pass. |
| NetworkSpec.IzlaziSlojevaLanac | ver2/DecisionTree.Model/Model/MLP/MLPMreza/MLPKlasifikatorMreza.cs:35-38 | The first layer's output is computed from the input, and each later layer's from the output of the layer before it. |
| NetworkSpec.Sirine | ver2/DecisionTree.Model/Model/MLP/MLPMreza/MLPKlasifikatorMreza.cs:13-28 | The widths are the input count, the hidden widths and the output count. |
| NetworkSpec.OblikovanoNaprijed | ver2/DecisionTree.Model/Model/MLP/MLPMreza/MLPKlasifikatorMreza.cs:13-18 | Layers built with each one's inputs equal to the previous width accept any input no wider than the first width. The output is as wide as the last width. |
| NetworkSpec.PocetneTezine | ver2/DecisionTree.Model/Model/MLP/MLPMreza/Neuron.cs:24-26 | There are n initial weights, each in [-0.5, 0.5). |
| NetworkSpec.PocetnaJedinica | ver2/DecisionTree.Model/Model/MLP/MLPMreza/Neuron.cs:21-31 | A new neuron has n weights, and its weights and bias all lie in [-0.5, 0.5). |
| NetworkSpec.PocetniSloj | ver2/DecisionTree.Model/Model/MLP/MLPMreza/Layer.cs:13-17 | A new layer has the requested number of neurons. |
| NetworkSpec.PocetnaMreza | ver2/DecisionTree.Model/Model/MLP/MLPMreza/MLPKlasifikatorMreza.cs:9-30 | A new network has one layer per width after the first. |
| NetworkSpec.PocetniSlojOblik | ver2/DecisionTree.Model/Model/MLP/MLPMreza/Layer.cs:13-17 | Every neuron of a new layer has the input width, the layer's activation, and weights and bias in [-0.5, 0.5). |
| NetworkSpec.PocetnaMrezaOblik | ver2/DecisionTree.Model/Model/MLP/MLPMreza/MLPKlasifikatorMreza.cs:13-29 | In a new network, layer i has widths[i+1] neurons with widths[i] weights each. Hidden layers use the hidden activation and the last layer uses the output one. All weights and biases lie in [-0.5, 0.5). |
| NetworkSpec.IzlazMreze | ver2/DecisionTree.Model/Model/MLP/MLPMreza/MLPKlasifikatorMreza.cs:32-47 | Without Softmax the output is the forward pass. With it, the output fails only for an empty layer and is otherwise a probability vector of the same width. |
| NetworkSpec.IzlazPocetneMreze | ver2/DecisionTree.Model/Model/MLP/MLPMreza/MLPKlasifikatorMreza.cs:9-47 | A new network accepts any input no wider than its input count and outputs brojIzlaza entries. It fails only for Softmax over zero outputs. |
| NetworkSpec.Korak | ver2/DecisionTree.Model/Model/MLP/MLPMreza/Neuron.cs:61-62 | The weight step keeps the number of weights. |
| NetworkSpec.Azurirano | ver2/DecisionTree.Model/Model/MLP/MLPMreza/Neuron.cs:59-65 | An update keeps the weight count and the activation. |
| NetworkSpec.AzuriranoNula | ver2/DecisionTree.Model/Model/MLP/MLPMreza/Neuron.cs:59-65 | A zero step leaves the neuron unchanged. |
| NetworkSpec.DotPomaknutih | ver2/DecisionTree.Model/Model/MLP/MLPMreza/Neuron.cs:61-62 | Moving the weights by d moves the weighted sum of x by x·d. |
| NetworkSpec.DotSkalirano | ver2/DecisionTree.Model/Model/MLP/MLPMreza/Neuron.cs:61-62 | Weights s·y sum against x to s times x·y. |
| NetworkSpec.DotKorak | ver2/DecisionTree.Model/Model/MLP/MLPMreza/Neuron.cs:61-62 | After a step of s, the weighted sum of x grows by s times x·x. |
| NetworkSpec.DotSelfNonNegative | ver2/DecisionTree.Model/Model/MLP/MLPMreza/Neuron.cs:61-62 | x·x is never negative. |
| NetworkSpec.KorakPomjeraSumu | ver2/DecisionTree.Model/Model/MLP/MLPMreza/Neuron.cs:59-65 | An update of step s moves the pre-activation sum by s(x·x + 1): up for s > 0 and down for s < 0. |
| Neurons.Neuron.Jedinica | ver2/DecisionTree.Model/Model/MLP/MLPMreza/Neuron.cs:12-14 | A neuron's value has as many weights as its weight array. |
| Neurons.Neuron.constructor | ver2/DecisionTree.Model/Model/MLP/MLPMreza/Neuron.cs:21-31 | The weights and bias are the initial draws, the derivative is kept, and the weight array is fresh. |
| Neurons.Neuron.Izracunaj | ver2/DecisionTree.Model/Model/MLP/MLPMreza/Neuron.cs:33-42 | Returns and stores the activation of the weighted sum plus bias. |
| Neurons.Neuron.IzracunajDeltaIzlazni | ver2/DecisionTree.Model/Model/MLP/MLPMreza/Neuron.cs:44-48 | Delta is (target − output) times the derivative at the output. |
| Neurons.Neuron.IzracunajDeltaSkriveni | ver2/DecisionTree.Model/Model/MLP/MLPMreza/Neuron.cs:50-57 | Delta is the next layer's weights dotted with its deltas, times the derivative at the output. |
| Neurons.Neuron.AzurirajTezine | ver2/DecisionTree.Model/Model/MLP/MLPMreza/Neuron.cs:59-65 | Weights and bias become the step of rate × delta applied to the old neuron. |
| Neurons.DeltaImaZnakGreske | ver2/DecisionTree.Model/Model/MLP/MLPMreza/Neuron.cs:46-47 | With a positive derivative, the output delta has the sign of the error: positive iff the target is above the output, negative iff below. |
| Neurons.KorakPremaCilju | ver2/DecisionTree.Model/Model/MLP/MLPMreza/Neuron.cs:44-65 | A delta followed by an update with positive rate moves the weighted sum toward the target. A met target leaves the neuron unchanged. |
| Layers.Layer.Jedinice | ver2/DecisionTree.Model/Model/MLP/MLPMreza/Layer.cs:11 | There is one neuron value per neuron. |
| Layers.Layer.constructor | ver2/DecisionTree.Model/Model/MLP/MLPMreza/Layer.cs:13-17 | Gives brojNeurona new neurons with the given activation, each holding its own fresh weight array. |
| Layers.Layer.Izracunaj | ver2/DecisionTree.Model/Model/MLP/MLPMreza/Layer.cs:19-22 | Returns the layer's output, keeps the weights, biases and deltas, and stores each neuron's output. |
| MLPNetwork.Mreza | ver2/DecisionTree.Model/Model/MLP/MLPMreza/MLPKlasifikatorMreza.cs:5 | There is one layer value per layer object. |
| MLPNetwork.IzgradiSlojeve | ver2/DecisionTree.Model/Model/MLP/MLPMreza/MLPKlasifikatorMreza.cs:13-29 | The built layers are disjoint and fresh, and they equal the initial network over the widths. |
| MLPNetwork.DodajSloj | ver2/DecisionTree.Model/Model/MLP/MLPMreza/MLPKlasifikatorMreza.cs:16 | Appends one new layer and leaves the earlier layers unchanged. |
| MLPNetwork.Propagiraj | ver2/DecisionTree.Model/Model/MLP/MLPMreza/MLPKlasifikatorMreza.cs:34-38 | Returns the forward pass and keeps the layers disjoint. Every weight, bias and delta is unchanged, and every neuron caches its entry of IzlaziSlojeva. |
| MLPNetwork.ProlazSloj | ver2/DecisionTree.Model/Model/MLP/MLPMreza/MLPKlasifikatorMreza.cs:35-38 | One pass of the loop: layer i caches its entry of IzlaziSlojeva and returns it. Weights and deltas stay as they were. |
| MLPNetwork.IzracunajSloj | ver2/DecisionTree.Model/Model/MLP/MLPMreza/MLPKlasifikatorMreza.cs:37 | Layer i computes its output and caches it. Every layer keeps its weights and deltas, and the other layers keep their outputs. |
| MLPNetwork.MLPKlasifikatorMreza.constructor | ver2/DecisionTree.Model/Model/MLP/MLPMreza/MLPKlasifikatorMreza.cs:9-30 | Builds ReLU hidden layers and an output layer that is Linear under Softmax and Sigmoid otherwise. |
| MLPNetwork.MLPKlasifikatorMreza.Predikcija | ver2/DecisionTree.Model/Model/MLP/MLPMreza/MLPKlasifikatorMreza.cs:32-47 | Returns the network output, with Softmax when requested. Weights and deltas are unchanged, and every neuron caches its entry of IzlaziSlojeva. |
| MLPClassifier.Klase | ver2/DecisionTree.Model/Model/MLP/MLPKlasifikator.cs:97 | The class names are the target's values, or none without categorical metadata. |
| MLPClassifier.InterpretirajIzlaz | ver2/DecisionTree.Model/Model/MLP/MLPKlasifikator.cs:94-99 | An empty output fails. Otherwise the answer is the class name at the first maximum, or "Nepoznato" past the list. |
| MLPClassifier.InterpretacijaUKlasama | ver2/DecisionTree.Model/Model/MLP/MLPKlasifikator.cs:94-99 | When the output is no wider than the class list, the answer is one of the classes. |
| MLPClassifier.Predvidi | ver2/DecisionTree.Model/Model/MLP/MLPKlasifikator.cs:81-91 | Fails exactly on an empty output layer. Otherwise it answers "Nepoznato" or one of the class names. |
| MLPClassifier.MLPKlasifikator.constructor | ver2/DecisionTree.Model/Model/MLP/MLPKlasifikator.cs:28-41 | Stores the parameters, the Softmax flag, the target, the input attributes and the layers as given. |
| MLPClassifier.MLPKlasifikator.IzPodataka | ver2/DecisionTree.Model/Model/MLP/MLPKlasifikator.cs:43-76 | A numeric target throws InvalidOperation; missing categorical metadata throws NullReference. Otherwise the inputs are the used numeric attributes, Softmax is on, and the layers are the initial network with ReLU hidden layers and a Sigmoid output. |
| MLPClassifier.MLPKlasifikator.Predikcija | ver2/DecisionTree.Model/Model/MLP/MLPKlasifikator.cs:78-92 | The answer is Predvidi of the network before the call. Weights and deltas are unchanged, and every neuron caches its entry of IzlaziSlojeva. |
| MLPClassifier.PredikcijaNovogKlasifikatora | ver2/DecisionTree.Model/Model/MLP/MLPKlasifikator.cs:60-91 | A new classifier fails only when the target has no distinct values. With enough class names, it answers a class name. |
| MLPInput.OneHot | ver2/DecisionTree.Model/Model/MLP/Helper/MojDataSetHelperMLP.cs:54 | Gives one entry per listed value: 1.0 exactly where the value equals the row's text, and 0.0 elsewhere. |
| MLPInput.KategorijskiUOneHot | ver2/DecisionTree.Model/Model/MLP/Helper/MojDataSetHelperMLP.cs:51-55 | The block is as long as the attribute's top-value list, which is empty without metadata. |
| MLPInput.OneHotZbir | ver2/DecisionTree.Model/Model/MLP/Helper/MojDataSetHelperMLP.cs:54 | A block sums to the number of times the text occurs in the list. |
| MLPInput.OneHotJedinstven | ver2/DecisionTree.Model/Model/MLP/Helper/MojDataSetHelperMLP.cs:51-55 | Over distinct values, a listed text gives a single 1.0 at its position; otherwise the block is all zeros. |
| MLPInput.Dio | ver2/DecisionTree.Model/Model/MLP/Helper/MojDataSetHelperMLP.cs:34-37 | A numeric attribute adds one entry and a categorical one adds its block. |
| MLPInput.Kodiraj | ver2/DecisionTree.Model/Model/MLP/Helper/MojDataSetHelperMLP.cs:26-41 | Fails with KeyNotFound exactly when a used attribute is missing from the row. Otherwise the vector's width is the sum of the used attributes' widths. |
| MLPInput.KodirajSpoj | ver2/DecisionTree.Model/Model/MLP/Helper/MojDataSetHelperMLP.cs:30-38 | Encoding concatenated attribute lists concatenates the vectors, so blocks appear in attribute order. |
| MLPInput.NekoristeniNeDoprinose | ver2/DecisionTree.Model/Model/MLP/Helper/MojDataSetHelperMLP.cs:30 | Unused attributes contribute nothing. |
| MLPInput.RedUInputVektor | ver2/DecisionTree.Model/Model/MLP/Helper/MojDataSetHelperMLP.cs:26-41 | The appending loop produces exactly Kodiraj. |
| MLPSerialization.SlojeviDto | ver2/DecisionTree.Model/Model/MLP/Helper/MLPSerijalizacijaHelper.cs:34-52 | Gives one DTO layer per layer and one DTO neuron per neuron. |
| MLPSerialization.SnimiMrezu | ver2/DecisionTree.Model/Model/MLP/Helper/MLPSerijalizacijaHelper.cs:26-53 | The DTO copies the parameters, the Softmax flag, the target and the inputs, with one entry per layer. |
| MLPSerialization.UcitaniSloj | ver2/DecisionTree.Model/Model/MLP/Helper/MLPSerijalizacijaHelper.cs:89-95 | Gives one neuron per DTO neuron. |
| MLPSerialization.SviUcitani | ver2/DecisionTree.Model/Model/MLP/Helper/MLPSerijalizacijaHelper.cs:77-98 | Gives one layer per DTO layer. |
| MLPSerialization.UcitaniSlojevi | ver2/DecisionTree.Model/Model/MLP/Helper/MLPSerijalizacijaHelper.cs:77-98 | A DTO layer with no neurons fails with ArgumentOutOfRange (`Neuroni[0]` on a list). Otherwise each loaded neuron carries the stored weights and bias, the last layer uses Sigmoid and the others ReLU. |
| MLPSerialization.SnimiUcitaj | ver2/DecisionTree.Model/Model/MLP/Helper/MLPSerijalizacijaHelper.cs:26-108 | Round trip: loading the saved layers of a network with ReLU hidden layers and a Sigmoid output returns it unchanged when no layer is empty. A layer with no neurons makes loading fail. |
| MLPSerialization.NoviKlasifikatorSnimiUcitaj | ver2/DecisionTree.Model/Model/MLP/Helper/MLPSerijalizacijaHelper.cs:26-108 | A classifier built from a data set survives the round trip exactly when all of its widths are positive. |
| MLPSerialization.PostaviTezine | ver2/DecisionTree.Model/Model/MLP/Helper/MLPSerijalizacijaHelper.cs:91-95 | Copying the DTO's weights and biases into a layer makes it the loaded layer. |
| MLPSerialization.UcitajSloj | ver2/DecisionTree.Model/Model/MLP/Helper/MLPSerijalizacijaHelper.cs:79-97 | Appends the loaded layer and leaves the earlier layers unchanged. |
| MLPSerialization.UcitajMrezu | ver2/DecisionTree.Model/Model/MLP/Helper/MLPSerijalizacijaHelper.cs:71-108 | Fails with ArgumentOutOfRange exactly when a DTO layer is empty. Otherwise it gives a fresh classifier whose layers are UcitaniSlojevi and whose metadata is the DTO's. |
| RandomForest.Indeks | ver2/DecisionTree.Model/Model/StabloKlasificatori/RandomForestKlasifikator.cs:31 | `Random.Next(n)` gives an index below n. |
| RandomForest.BootstrapUzorak | ver2/DecisionTree.Model/Model/StabloKlasificatori/RandomForestKlasifikator.cs:28-33 | The sample is as large as the data and every sampled row is a row of the data. |
| RandomForest.Bootstrap | ver2/DecisionTree.Model/Model/StabloKlasificatori/RandomForestKlasifikator.cs:28-33 | The drawing loop builds exactly BootstrapUzorak. |
| RandomForest.PrviSNazivom | ver2/DecisionTree.Model/Model/StabloKlasificatori/RandomForestKlasifikator.cs:42 | `First` by name: none iff no attribute has the name. Otherwise it is the earliest attribute that has it. |
| RandomForest.Izabrani | ver2/DecisionTree.Model/Model/StabloKlasificatori/RandomForestKlasifikator.cs:36-40 | Without a count, the chosen attributes are exactly the used ones. With a count k, there are exactly min(max(k, 0), number of used attributes) of them, repeating no attribute more often than the list holds it. Every chosen attribute is used. |
| RandomForest.AtributiStabla | ver2/DecisionTree.Model/Model/StabloKlasificatori/RandomForestKlasifikator.cs:36-44 | The target comes last. Before it come all the used attributes, or exactly min(max(k, 0), number of used attributes) of them for a count k, without repeats beyond the list, each of them used. |
| RandomForest.IzborIzKoristenih | ver2/DecisionTree.Model/Model/StabloKlasificatori/RandomForestKlasifikator.cs:39 | A prefix of a shuffle is a sub-multiset of the list. |
| RandomForest.Podskup | ver2/DecisionTree.Model/Model/StabloKlasificatori/RandomForestKlasifikator.cs:46 | A tree's data set keeps the target name. |
| RandomForest.NoviPodskup | ver2/DecisionTree.Model/Model/StabloKlasificatori/RandomForestKlasifikator.cs:27-46 | One pass of the loop fails exactly when no attribute carries the target name. Otherwise it yields that tree's Podskup. |
| RandomForest.SkupoviStabala | ver2/DecisionTree.Model/Model/StabloKlasificatori/RandomForestKlasifikator.cs:15-49 | Null data or parameters throw ArgumentNull. A target name no attribute has throws InvalidOperation when at least one tree is built. Otherwise there are max(BrojStabala, 0) trees. |
| RandomForest.StabloOdSkupa | ver2/DecisionTree.Model/Model/StabloKlasificatori/RandomForestKlasifikator.cs:25-49 | Every tree's rows are as many as the data's and drawn from them, and its target is kept. Its last attribute is the target's metadata. Without an attribute count it sees all used attributes. |
| RandomForest.StabloI | ver2/DecisionTree.Model/Model/StabloKlasificatori/RandomForestKlasifikator.cs:25-49 | When the target attribute exists, tree i below the tree count is built, and it is Podskup of the i-th draws and shuffle. |
| RandomForest.RandomForestKlasifikator.constructor | ver2/DecisionTree.Model/Model/StabloKlasificatori/RandomForestKlasifikator.cs:21 | Stores the trees. |
| RandomForest.RandomForestKlasifikator.Kreiraj | ver2/DecisionTree.Model/Model/StabloKlasificatori/RandomForestKlasifikator.cs:15-54 | The loop builds exactly SkupoviStabala, with the same errors. |
| RandomForest.RandomForestKlasifikator.Predikcija | ver2/DecisionTree.Model/Model/StabloKlasificatori/RandomForestKlasifikator.cs:56-64 | No trees fail like `First()`. Otherwise the answer is some tree's vote. |
| RandomForest.Grupe | ver2/DecisionTree.Model/Model/StabloKlasificatori/RandomForestKlasifikator.cs:61 | `GroupBy` keys: each vote appears once, in order of first appearance. |
| RandomForest.NajveciIndeks | ver2/DecisionTree.Model/Model/StabloKlasificatori/RandomForestKlasifikator.cs:62-63 | The stable descending order's first group has the highest count and is the earliest such group. |
| RandomForest.Glasaj | ver2/DecisionTree.Model/Model/StabloKlasificatori/RandomForestKlasifikator.cs:59-63 | An empty vote fails. Otherwise the answer is a vote with the highest count, and on ties the earliest one. |
| RandomForest.NajvecaGrupa | ver2/DecisionTree.Model/Model/StabloKlasificatori/RandomForestKlasifikator.cs:60-63 | The chosen group is a vote with maximal count, first among ties. |
| RandomForest.JednoglasnoGlasanje | ver2/DecisionTree.Model/Model/StabloKlasificatori/RandomForestKlasifikator.cs:56-64 | A unanimous vote returns that label. |
| ClassicDataSet.AtributiIzReda | ML-Klasifikacija.Model/Helper/MojDataSet.cs:51-58 | Gives one attribute per entry of the first row, with the same name, numeric exactly when the value parses. |
| ClassicDataSet.NoviMojDataSet | ML-Klasifikacija.Model/Helper/MojDataSet.cs:41-71 | Null or empty rows throw ArgumentException. Otherwise the rows and the target are kept and the metadata comes from the first row. The older copy, ML-Klasifikacija.Model/MojDataSet.cs lines 41-57, is the same constructor. |
| ClassicDataSet.UCijeli | ML-Klasifikacija.Model/Helper/MojDataSet.cs:79 | The `(int)` cast truncates toward zero. |
| ClassicDataSet.Podijeli | ML-Klasifikacija.Model/Helper/MojDataSet.cs:73-88 | Fails with ArgumentException exactly when the test size is 0 or the whole set. Otherwise test followed by train is the shuffled rows and the test size is the cast count. Both keep the target and take their metadata from their own first row. The older copy, ML-Klasifikacija.Model/MojDataSet.cs lines 59-74, is the same split. |
| ClassicDataSet.PodjelaJeParticija | ML-Klasifikacija.Model/Helper/MojDataSet.cs:78-85 | Train and test together hold every row exactly as often as the data set does. |
| ClassicDataSet.Tacni | ML-Klasifikacija.Model/Helper/MojDataSet.cs:92-101 | The count is at most the row count. It is full iff every prediction is right, and zero iff none is. |
| ClassicDataSet.TacniKorak | ML-Klasifikacija.Model/Helper/MojDataSet.cs:96-102 | One more test row adds one to the correct count exactly when it is predicted right. |
| ClassicDataSet.Evaluiraj | ML-Klasifikacija.Model/Helper/MojDataSet.cs:90-110 | Accuracy is correct/total in [0, 1], equal to 1 iff every prediction is right, and precision, recall and F1 are 0. |
| ClassicDataSet.Udio | ML-Klasifikacija.Model/Helper/MojDataSet.cs:105 | k/n lies in [0, 1] and equals 1 iff k = n. |
| LegacyDataSet.EvaluirajNeimplementirano | ML-Klasifikacija.Model/MojDataSet.cs:76-79 | Always throws NotImplementedException. |
| DecisionTreeStub.JednaKlasa | ML-Klasifikacija.Model/StabloKlasifikator.cs:33 | There is exactly one distinct class iff the rows are nonempty and all share the first row's class. |
| DecisionTreeStub.IzgradiStablo | ML-Klasifikacija.Model/StabloKlasifikator.cs:31-42 | A single-class data set gives a leaf with no attribute, no children and that class. No tree otherwise. |
| DecisionTreeStub.NoviStabloKlasifikator | ML-Klasifikacija.Model/StabloKlasifikator.cs:22-29 | No attributes throws ArgumentException. Otherwise the root is IzgradiStablo, a single leaf for a single class. |
| DotWriter.Decimalno | ver2/DecisionTree.Model/Model/StabloKlasificatori/Helper/GraphvizVisualizerHelper.cs:49 | An id prints as a nonempty string of decimal digits. |
| DotWriter.ZadnjiIndeks | ver2/DecisionTree.Model/Model/StabloKlasificatori/Helper/GraphvizVisualizerHelper.cs:28 | The last position with the property, or -1 when there is none. |
| DotWriter.ImeBezEkstenzije | ver2/DecisionTree.Model/Model/StabloKlasificatori/Helper/GraphvizVisualizerHelper.cs:28 | The file name holds no directory separator. |
| DotWriter.NazivGrafa | ver2/DecisionTree.Model/Model/StabloKlasificatori/Helper/GraphvizVisualizerHelper.cs:28-29 | The graph name holds only ASCII letters and keeps every letter of the file name. |
| DotWriter.PromijeniEkstenziju | ver2/DecisionTree.Model/Model/StabloKlasificatori/Helper/GraphvizVisualizerHelper.cs:69 | An empty path stays empty. Otherwise the result ends in `.dot` after a prefix of the path. |
| DotWriter.DotPutanja | ver2/DecisionTree.Model/Model/StabloKlasificatori/Helper/GraphvizVisualizerHelper.cs:68-69 | The result is empty iff the path is. A nonempty result ends in `.dot`, and a `.dot` path is kept. |
| DotWriter.DotPutanjaIdempotentna | ver2/DecisionTree.Model/Model/StabloKlasificatori/Helper/GraphvizVisualizerHelper.cs:68-69 | Asking twice changes nothing. |
| DotWriter.SpojiSpoj | ver2/DecisionTree.Model/Model/StabloKlasificatori/Helper/GraphvizVisualizerHelper.cs:30 | The text of two runs of lines is the two texts in order. |
| DotWriter.TekstSpoj | ver2/DecisionTree.Model/Model/StabloKlasificatori/Helper/GraphvizVisualizerHelper.cs:30 | Appending lines to the builder appends their text. |
| DotWriter.Velicina | ver2/DecisionTree.Model/Model/StabloKlasificatori/Helper/GraphvizVisualizerHelper.cs:37-62 | A tree has at least one node. |
| DotWriter.PuteviRazliciti | ver2/DecisionTree.Model/Model/StabloKlasificatori/Helper/GraphvizVisualizerHelper.cs:39-40 | Distinct nodes have distinct dictionary keys. |
| DotWriter.JednaLinijaPoCvoru | ver2/DecisionTree.Model/Model/StabloKlasificatori/Helper/GraphvizVisualizerHelper.cs:43-49 | The node lines are, in preorder, one per node, labelled by Oznaka and numbered consecutively from the start id. |
| DotWriter.JednaGranaPoDjetetu | ver2/DecisionTree.Model/Model/StabloKlasificatori/Helper/GraphvizVisualizerHelper.cs:51-61 | The edge lines point, in order, at every node except the root, once each. |
| DotWriter.OkvirTeksta | ver2/DecisionTree.Model/Model/StabloKlasificatori/Helper/GraphvizVisualizerHelper.cs:31-32 | The text opens with the `digraph` header and the box shape, and closes with `}`. |
| DotWriter.DodijeliVrijednosti | ver2/DecisionTree.Model/Model/StabloKlasificatori/Helper/GraphvizVisualizerHelper.cs:39-40 | Distinct keys given ids in order get start, start+1, … |
| DotWriter.IdPoPreorderu | ver2/DecisionTree.Model/Model/StabloKlasificatori/Helper/GraphvizVisualizerHelper.cs:34-40 | The dictionary holds exactly the tree's nodes, and the k-th node in preorder has id k. |
| DotWriter.DotPisac.constructor | ver2/DecisionTree.Model/Model/StabloKlasificatori/Helper/GraphvizVisualizerHelper.cs:30-35 | Starts with an empty builder, id 0 and an empty dictionary. |
| DotWriter.DotPisac.DodajLiniju | ver2/DecisionTree.Model/Model/StabloKlasificatori/Helper/GraphvizVisualizerHelper.cs:49 | Appends one line. |
| DotWriter.DotPisac.Print | ver2/DecisionTree.Model/Model/StabloKlasificatori/Helper/GraphvizVisualizerHelper.cs:37-62 | Appends Ispis of the subtree from the node's id and advances the counter by the subtree size. The dictionary gains the subtree's nodes in preorder. |
| DotWriter.DotPisac.PrintDijete | ver2/DecisionTree.Model/Model/StabloKlasificatori/Helper/GraphvizVisualizerHelper.cs:53-60 | Processing child i appends its edge line and its subtree's lines and numbers its nodes. |
| DotWriter.MakeDotFile | ver2/DecisionTree.Model/Model/StabloKlasificatori/Helper/GraphvizVisualizerHelper.cs:26-82 | The text is the header, the tree's node and edge lines in preorder, then `}`. The returned path is DotPutanja of the argument. |

## Left out

- **File and process I/O.** Not modelled:
  - writing and reading JSON and `.dot` files, and creating the directory;
  - `DotFileUSliku`, which runs the Graphviz process;
  - console output and the training stopwatches.

  SnimiMrezu returns the DTO instead of writing it, UcitajMrezu takes the DTO, and MakeDotFile returns the text along with the path.
- **Random numbers.** Random generators and their seeds are not modelled. Draws and shuffle orders are parameters.
- **Math functions.** `Math.Exp` is a parameter. `double.TryParse` is a parameter `jeBroj`. The threshold's `0.###` formatting is a parameter `formatPraga`. `Environment.NewLine` is a parameter `noviRed`.
- **Floating point.** Rounding, NaN and infinities are not modelled. Arithmetic is on reals.
- **Input vectors.** `MLPDataSetHelper.RedUInputVektor`, which `MLPKlasifikator.Predikcija` calls, is not part of this model. The classifier's Predikcija takes the encoded input vector. The encoder that is part of this model is `MojDataSetHelperMLP.RedUInputVektor` (MLPInput).
- **ver2 trees.** The ver2 `StabloKlasifikator` and `MojDataSet` are not part of this model. A forest tree is represented by the data set it is trained on, and predicting is a parameter that maps that set to a vote. The tree constructor's own exceptions are not modelled. The DOT writer reads only the node members it prints. It takes the leaf flag `JeList` as a node member, because the ver2 node class that defines it is not part of this model.
- **Backpropagation derivatives.** `ReLUDerivacija` and `SigmoidDerivacija` are parameters.
- **Layer derivative.** `Layer.cs` line 16 calls a two-argument `Neuron` constructor, but `Neuron` takes three. The model's Layer constructor takes the derivative as a parameter and passes it on.
- **Top-5 items.** Only their `Vrijednost` strings are kept.
- **Negative widths.** Layer widths and counts are `nat`. In the source a negative neuron count builds an empty layer, because the loop in `Layer.cs` line 15 runs zero times. A negative input count throws when `Neuron.cs` line 24 allocates the weight array. Neither case is modelled.
- Neurons.Neuron.Izracunaj: requires the input to be no wider than the weights. The source throws IndexOutOfRange for a wider input.
- Neurons.Neuron.AzurirajTezine: requires the input to be at least as wide as the weights. The source throws otherwise.
- Neurons.Neuron.IzracunajDeltaSkriveni: requires at least as many deltas as weights. The source throws with fewer and ignores extra deltas.
- MLPSerialization.UcitajMrezu: copies each DTO weight array into a fresh array. The source shares the DTO's array, which nothing else holds after loading.
- MLPSerialization.UcitajMrezu: sizes each layer from its first neuron's weight count. The model keeps each neuron's own stored weights.
- DotWriter.DotPisac.Print: identifies a node by its path from the root. A tree whose children are shared objects, where the dictionary would reuse an id, is not modelled.
- DotWriter.ImeBezEkstenzije: treats `/` and `\` as separators. Drive letters (`C:`) and other platform rules of `Path` are not modelled.
- DotWriter.DotPutanja: checks the `.dot` suffix ordinally. The source's `EndsWith(string)` is culture-sensitive.
- ClassicDataSet.Evaluiraj: requires a nonempty test set. Every `MojDataSet` is nonempty by its constructor; the source would divide by zero (NaN) otherwise.
- ClassicDataSet.Evaluiraj: makes the classifier's prediction a parameter, because the first-generation `StabloKlasifikator` has no `Predikcija`.
- ClassicDataSet.UCijeli: models the `(int)` cast's truncation. Overflow and NaN are not modelled.
- DecisionTreeStub.IzgradiStablo: returns no tree when the rows have more than one class. The source has no return statement on that path.
- DotWriter.DotPisac.PrintDijete: is the body of the source's child loop, split out as a method of its own. The source has no separate method for it.
- RandomForest.NoviPodskup: is the body of the constructor's tree loop, split out as a method of its own. The source has no separate method for it.
