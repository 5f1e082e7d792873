# easy_contract code generator, in Dafny

`easy_contract` deploys an Ethereum contract from its compiled JSON
interface. It then wraps the contract in a Python class generated at run
time, with one method per contract function. This project models that
generator: the part of `Contract` that turns a contract name and a parsed
ABI (Application Binary Interface, the list of entries describing the
contract's functions, constructor and events) into the Python source text
of the wrapper class. It proves what that text is.

The model has four modules:

- `Text`: Python's `sep.join`, splitting an argument list at `", "`, and
  prefix, suffix and substring tests.
- `Abi`: the parsed ABI entry. A dictionary key the entry may lack is an
  `Option`. Reading an absent key is the `KeyError` the Python code raises,
  returned as `Err(MissingKey(key))`.
- `Naming`: `_normalize_name`. The reserved-word list (`keyword.kwlist`)
  is a `set<string>` parameter.
- `Contract`: the two templates, the docstring (`_make_func_docs`), the
  argument list (`_make_func_args`), one method (`_make_func`) and the
  class file (`_make_class_file_content`).

Every operation reads the entry's keys in the order the Python code
evaluates them, so a missing key fails with the same key:

- `_make_func` reads `stateMutability`, `inputs`, `name`, then `outputs`.
- `_make_func_docs` reads `name`, `inputs`, then `outputs`.
- The class loop reads `type` and renders only `"function"` entries.

`_make_func_docs` and `_make_class_file_content` build their result in
loops, so they are methods. Each is proved equal to a specification
function (`FuncDocs`, `ClassFileContent`), and the properties are proved
about those functions. `_normalize_name`, `_make_func_args` and
`_make_func` are single expressions and are modelled as functions.

Three behaviours to be aware of:

- The class gets no deployment method for the constructor entry: every
  entry whose `type` is not `"function"` adds nothing
  (`NonFunctionEntryIgnored`).
- That a docstring without outputs contains no ` -> ` is proved under the
  condition that the function name and the input types and names contain
  no `>`. Without it the claim can fail: a function named `x -> y` gives
  a docstring containing ` -> `.
- That a normalised name is never a reserved word is proved under the
  condition that no reserved word ends in `_`, which is true of Python's
  list. Without it the claim can fail: with the reserved words `a` and
  `a_`, the name `a` normalises to `a_`.

## Model

| member | source | states |
|---|---|---|
| Abi.Lookup | easy_contract/contract.py:77 | `entry[key]` yields the value when the key is present and `KeyError(key)` exactly when it is absent |
| Naming.ReplaceNonLetters | easy_contract/contract.py:66 | the replaced text has the input's length and only letters and `_`; each letter stays at its position and every other character becomes `_` |
| Naming.NormalizeName | easy_contract/contract.py:65-67 | the result has only ASCII letters and `_`; each input letter keeps its position; every other character becomes `_` at its position; the length grows by one exactly when the replaced text is a reserved word, and the extra character is a trailing `_` |
| Naming.NormalizeKeepsPlainNames | easy_contract/contract.py:66-67 | a non-reserved name made only of letters is returned unchanged |
| Naming.NormalizeAvoidsKeywords | easy_contract/contract.py:67 | if no reserved word ends in `_`, a normalised name is never a reserved word |
| Naming.NormalizeIdempotent | easy_contract/contract.py:65-67 | under the same condition, normalising twice equals normalising once |
| Naming.DistinctNamesCollide | easy_contract/contract.py:66 | different names can normalise to the same identifier (`a1` and `a2` both give `a_`) |
| Naming.ContractNameExample | easy_contract/contract.py:65-67 | the contract name `My Token!` becomes the class name `My_Token_` |
| Text.SplitJoin | easy_contract/contract.py:101 | splitting the `", "`-join of comma-free fields at `", "` gives back exactly those fields |
| Contract.ClassTemplate | easy_contract/contract.py:17-20 | the class header: the class name follows `class ` on the first line, the text ends with the constructor storing the contract, and its length is the name's plus 83 |
| Contract.DefLine | easy_contract/contract.py:23 | the `def` line starts with the method name at a fixed position, then `(self`, and ends with the optional argument text and `tx` text, then `):` |
| Contract.DocLine | easy_contract/contract.py:24 | the docstring line holds the docs between triple quotes, at a fixed position, and is 15 characters longer than the docs |
| Contract.ReturnLine | easy_contract/contract.py:25 | the `return` line names the contract function of the same name at a fixed position, applies it to the arguments, and ends with `call` or `transact` applied to `tx` |
| Contract.FuncTemplate | easy_contract/contract.py:22-25 | the method text starts with its `def` line, has the method name both in the `def` line and in the forwarded call, holds the docs in between, and ends with the call or transaction applied to `tx` |
| Contract.Signature | easy_contract/contract.py:104-124 | the signature starts with the name and the parenthesised input docs; it has an arrow part ` -> (...)` right after them exactly when there are outputs |
| Contract.InputDocs | easy_contract/contract.py:107-108 | one `type: name` per input, in input order, using the raw input name |
| Contract.OutputDocs | easy_contract/contract.py:116-120 | one entry per output, in order: the bare type for an unnamed output, `type: name` otherwise |
| Contract.FuncDocs | easy_contract/contract.py:103-124 | a missing `name`, `inputs` or `outputs` key fails with that key, checked in that order; the docstring exists exactly when all three are present |
| Contract.CollectInputDocs | easy_contract/contract.py:106-108 | the loop collects exactly the input docs, in input order |
| Contract.CollectOutputDocs | easy_contract/contract.py:115-120 | the loop collects exactly the output docs, in output order, with unnamed outputs shown as their bare type |
| Contract.MakeFuncDocs | easy_contract/contract.py:103-124 | the joined pieces the method builds equal the specification `FuncDocs`, error cases included |
| Contract.DocsWithoutOutputs | easy_contract/contract.py:104-112 | with no outputs the docstring is exactly `name(type: arg, ...)`; it contains no ` -> ` when the name and the inputs contain no `>` |
| Contract.DocsWithOutputs | easy_contract/contract.py:112-122 | with outputs the docstring is the input part, then ` -> (`, the output docs joined by `", "`, and `)`; the ` -> ` sits right after the input part |
| Contract.SingleUnnamedOutput | easy_contract/contract.py:115-122 | a single unnamed `uint256` output makes the docstring end in ` -> (uint256)` |
| Contract.MakeFuncArgs | easy_contract/contract.py:100-101 | fails exactly when `inputs` is missing, with that key; zero inputs give the empty text |
| Contract.ArgsRoundTrip | easy_contract/contract.py:100-101 | the argument text is the normalised input names joined by `", "`: splitting it gives them back one by one, in input order |
| Contract.UnnamedInputDropped | easy_contract/contract.py:100-101 | a lone input with an empty name gives the empty argument text, so the generated method takes and forwards no argument |
| Contract.MakeFunc | easy_contract/contract.py:84-98 | a missing `stateMutability`, `inputs`, `name` or `outputs` key fails with that key, checked in that order; the method text exists exactly when all four are present |
| Contract.ViewMethodCalls | easy_contract/contract.py:84-98 | for `view` the method is `def name(self, args...)` with no `tx`, has the signature as its docstring, and returns `self.contract.functions.name(args...).call()`; `name` is the raw ABI name |
| Contract.OtherMethodTransacts | easy_contract/contract.py:84-98 | for any other mutability, `pure` included, the parameter list ends in `tx` after the arguments and the body ends in `.transact(tx)` |
| Contract.NoInputsNoSeparator | easy_contract/contract.py:92-97 | with no inputs there is no argument separator: the `def` line reads `(self):` for a view and `(self, tx):` otherwise |
| Contract.EntryText | easy_contract/contract.py:76-80 | an entry without `type` fails with `type`; a non-function entry adds the empty text; a function entry adds its rendered method; it succeeds exactly on a well-formed entry |
| Contract.RenderMethods | easy_contract/contract.py:76-80 | an empty ABI renders no methods; a failed rendering fails with the error of one of the entries |
| Contract.ClassFileContent | easy_contract/contract.py:73-82 | a successful class file starts with the class template filled with the class name; an empty ABI gives exactly that template |
| Contract.MakeClassFileContent | easy_contract/contract.py:73-82 | the loop returns exactly `ClassFileContent`: the same class name and ABI always give the same text or the same error |
| Contract.FailedPrefixFails | easy_contract/contract.py:76-80 | the first failing entry decides the error; later entries do not change it |
| Contract.RenderMethodsAppend | easy_contract/contract.py:76-80 | rendering two concatenated ABI lists gives the first list's methods then the second's, or the first error in list order |
| Contract.NonFunctionEntryIgnored | easy_contract/contract.py:77-78 | inserting an entry whose `type` is not `"function"` (a constructor, an event) anywhere in the ABI changes nothing |
| Contract.RenderMethodsOk | easy_contract/contract.py:76-80 | rendering succeeds exactly when every entry has a `type` and every function entry has the four keys a method needs |
| Contract.RenderMethodsText | easy_contract/contract.py:76-82 | on a well-formed ABI the rendered methods are one method per function entry, in ABI order, concatenated |
| Contract.ClassFileOneMethodPerFunction | easy_contract/contract.py:73-82 | the class file succeeds exactly on a well-formed ABI, and is then the class template followed by exactly one rendered method per function entry, in ABI order |

## Left out

- `Contract.__init__` and `make` (easy_contract/contract.py:27-45): deploying the contract, the transaction and the receipt lookup are calls into web3 over the network. The class name and the ABI are taken as inputs, and the class name is assumed to be normalised already.
- `_load_json` (easy_contract/contract.py:53-55): file reading and JSON parsing. The ABI is an already-parsed list of `Entry` values.
- `_append_import_path`, `_create_py_class` and `_make0` (easy_contract/contract.py:47-51, 57-63, 69-71): creating directories, writing the file, changing `sys.path` and importing the module are file-system and runtime side effects.
- `start` (easy_contract/contract.py:127-156): the command line, the IPython shell and the HTTP provider are I/O.
- The contents of Python's `keyword.kwlist`: the reserved words are a parameter.
- Abi.Param: an input or output element is modelled with both its `type` and `name` keys present. A `KeyError` from an element without them is not modelled, and neither are JSON values that are not strings, such as a `null` name.
- Abi.Entry: the keys of an ABI entry hold a string or a list of elements when present. JSON `null` and other non-string values are not modelled. For example, `"outputs": null` is false in Python's `if abi["outputs"]`, so no ` -> ` part would be rendered. A non-string `type` is skipped like any other non-`"function"` type.
- Naming.NormalizeAvoidsKeywords and Naming.NormalizeIdempotent: both assume no reserved word ends in `_`, which is true of Python's list.
- Strings are sequences of Unicode characters. A Python string holding a lone surrogate has no counterpart.
- The generated text is not parsed as Python. A name containing `"""` or a newline would yield a class file that does not compile, and the model says nothing about that.
