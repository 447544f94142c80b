# uBitAddr: address and key derivation, trimming and LCD layout

uBitAddr is a small Bitcoin paper-wallet generator for CircuitPython boards.
A C extension module, `bitaddr`, turns two entropy strings into a key pair:

- The raw private key is SHA-256 of the first string, read up to its first NUL byte.
- The PRNG is seeded from SHA-256 of the second string.
- The public key comes from elliptic-curve derivation on secp256k1.
- The address is either a legacy Base58Check P2PKH address or a Bitcoin Cash CashAddr address.
- The private key is exported as WIF (Wallet Import Format).

The Python application class `uBitAddr` then does three things:

- It calls the module, choosing the call by currency.
- It trims the returned strings to fixed widths.
- It lays them out for a 20-column character LCD with `prep_data`.

The project has four modules:

- `BitAddr` (`bitaddr.dfy`) models the C helpers imperatively.
  - Local stack buffers are `array<Byte>` values, filled by indexed writes and a `Memcpy` loop at the source's offsets.
  - Each helper method is proved against a byte-layout function (`RawAddress`, `CashAddrPayload`, `RawWif`), and the entry function against `AddressPrivkey`.
  - `privkey_from_entropy` is a single hash call, so it is modelled directly as the function `PrivkeyFromEntropy`.
  - Lemmas state the offsets, lengths, checksums and the Base58Check round trip.
  - The process-wide PRNG is the class `Random32`. Its event log lets the entry function state what is seeded, and when.
  - The hash, EC and text-encoding primitives are the fields of a `Crypto` record. These are uninterpreted functions whose result types carry the output lengths: 32 bytes for SHA-256, 20 for RIPEMD-160 and 65 for the public key.
- `Text` (`text.dfy`) holds the string functions of the application:
  - `Prepped` is the accumulator of `prep_data` after n input positions.
  - `Lines`/`Join` are an independent reference layout by windows of input positions.
  - It also holds the trimming (`Take`, `RemoveAll`, `Trimmed`) and the lemmas about all of these.
- `UBitAddrCore` (`ubitaddr.dfy`) holds the application class `UBitAddr`:
  - `PrepData` is a loop method proved against `Prepped`.
  - `GenerateAddressPrivkey` does the currency dispatch and the trimming.
  - The display loop is modelled twice: as written and corrected (see Findings).
- `Wrappers` (`wrappers.dfy`) holds `Option` and `Result`.

Python exceptions become `Result` failures: `ZeroDivisionError` for a zero width, and the exception for an unknown entropy source.

`prep_data` and the leading newline: the output is not guaranteed to start with a character other than a newline. It starts with `"\n"` exactly when the input is longer than one window and the first window holds no alphanumeric character (`Text.LeadingNewline`). A reader might expect no leading newline; the code emits one in this case, and the model follows the code.

## Model

| member | source | states |
|---|---|---|
| BitAddr.CStrLen | src/module/shared-module/bitaddr/__init__.c:42 | `strlen`: the result is the index of the first NUL, or the whole length when there is none; every byte before it is nonzero |
| BitAddr.PrivkeyFromEntropy | src/module/shared-module/bitaddr/__init__.c:40-43 | the 32-byte raw private key is SHA-256 of the longest prefix of the entropy without a NUL byte |
| BitAddr.PrivkeyIgnoresAfterNul | src/module/shared-module/bitaddr/__init__.c:40-43 | the raw private key is SHA-256 of exactly the bytes before the first NUL; bytes after an embedded NUL have no effect |
| BitAddr.Memcpy | src/module/shared-module/bitaddr/__init__.c:75-76 | `memcpy` at an offset writes exactly that range of the destination and leaves every other byte unchanged |
| BitAddr.Random32.Init | src/module/shared-module/bitaddr/__init__.c:141 | `init_random32` makes the given digest the PRNG seed and logs the reseed |
| BitAddr.PubkeyFromPrivkey | src/module/shared-module/bitaddr/__init__.c:33-37 | the public key is the 65-byte EC derivation of the raw key; the derivation consults the PRNG with the seed in force and does not reseed it |
| BitAddr.AddressFromPubkey | src/module/shared-module/bitaddr/__init__.c:46-80 | the array-built buffer handed to `b58enc` is exactly the 25-byte Base58Check layout of version 0x00 and RIPEMD-160(SHA-256(pubkey)) |
| BitAddr.CashAddressFromPubkey | src/module/shared-module/bitaddr/__init__.c:83-99 | the encoder receives the prefix "bitcoincash" and exactly the 21-byte payload: version byte P2PKH, 160 bits, then the hash160 |
| BitAddr.PrivkeyWifFromRaw | src/module/shared-module/bitaddr/__init__.c:101-129 | the array-built buffer handed to `b58enc` is exactly the 37-byte Base58Check layout of version 0x80 and the raw key |
| BitAddr.GetAddressPrivkey | src/module/shared-module/bitaddr/__init__.c:133-165 | the pair written is `AddressPrivkey` of the key entropy and flag, a function that does not take the ECDSA entropy; the PRNG ends seeded with SHA-256 of the ECDSA entropy; the reseed is logged before the public key derivation, which sees that seed |
| BitAddr.Base58CheckRoundTrip | src/module/shared-module/bitaddr/__init__.c:74-76 | checking and splitting a version+data+checksum buffer gives back the version and the data |
| BitAddr.Base58CheckSplitSound | src/module/shared-module/bitaddr/__init__.c:74-76 | conversely, a buffer that passes the checksum check is rebuilt exactly from what it splits into |
| BitAddr.RawAddressLayout | src/module/shared-module/bitaddr/__init__.c:52-76 | the raw address is 25 bytes: 0x00 at 0, RIPEMD-160(SHA-256(pubkey)) at 1..21, the first 4 bytes of SHA-256(SHA-256(bytes 0..21)) at 21..25; it splits back into version 0x00 and the hash |
| BitAddr.CashAddrPayloadLayout | src/module/shared-module/bitaddr/__init__.c:86-98 | the CashAddr payload is 21 bytes, version 0 then the hash160; it equals the first 21 bytes of the legacy raw address and has no checksum |
| BitAddr.RawWifLayout | src/module/shared-module/bitaddr/__init__.c:105-125 | the raw WIF buffer is 37 bytes: 0x80 at 0, the key at 1..33, the first 4 bytes of SHA-256(SHA-256(bytes 0..33)) at 33..37; it splits back into 0x80 and the key |
| BitAddr.Dispatch | src/module/shared-module/bitaddr/__init__.c:154-164 | a nonzero flag gives the CashAddr encoding and zero the legacy Base58Check encoding; the WIF key is the export of SHA-256 of the key entropy, the same for every flag value |
| Text.InAlphabet | src/core/uBitAddr.py:126 | a character is in the alphabet string iff it is an ASCII letter or digit; the alphabet has 62 characters and no newline |
| Text.FilterAppend | src/core/uBitAddr.py:133-134 | filtering to the alphabet distributes over concatenation, so order is kept |
| Text.FilterLength | src/core/uBitAddr.py:133-134 | filtering never lengthens the input, and every character it keeps is alphanumeric |
| Text.FilterKeepsAlnum | src/core/uBitAddr.py:133-134 | an all-alphanumeric string passes the filter unchanged |
| Text.PreppedCharacters | src/core/uBitAddr.py:126-134 | every character of the accumulator is in the alphabet or is a newline |
| Text.PreppedDeleteNewlines | src/core/uBitAddr.py:129-134 | deleting the newlines from the accumulator gives the input so far filtered to the alphabet, in order |
| Text.PreppedNewlineCount | src/core/uBitAddr.py:128-131 | the number of newlines is the number of indices i in 1..n-1 with i % colmax == 0 |
| Text.PreppedIsLines | src/core/uBitAddr.py:128-136 | the accumulator equals a reference layout: the input cut into windows of colmax input positions, each window filtered, the windows joined by newlines |
| Text.LineAt | src/core/uBitAddr.py:129-134 | output line k is the filtered input window [k*colmax, (k+1)*colmax), so breaks follow input positions, not output length |
| Text.LinesShape | src/core/uBitAddr.py:129-134 | no output line holds more than colmax characters or a newline |
| Text.LeadingNewline | src/core/uBitAddr.py:128-131 | for a positive width, empty input gives empty output; the output starts with a newline iff the input is longer than colmax and its first colmax characters hold no alphanumeric |
| Text.PrepTwoLines | src/core/uBitAddr.py:129-134 | for alphanumeric text of at least two windows, the output begins with the first window, a newline, then the second window |
| Text.PrepAfterPrep | src/core/uBitAddr.py:129-134 | preparing text longer than 2*colmax whose indices 0..colmax-1 and colmax+1..2*colmax-1 hold alphanumerics, with a newline at index colmax, puts a newline at index 2*colmax |
| Text.RepreppingMovesBreak | src/core/uBitAddr.py:129-134 | for alphanumeric text of at least 2*colmax characters, preparing twice differs from preparing once: index 2*colmax holds input character 2*colmax-1 after one pass and a newline after two |
| Text.PrepShortTwoLines | src/core/uBitAddr.py:129-134 | alphanumeric text of between colmax+1 and 2*colmax-1 characters gets exactly one newline, after colmax characters |
| Text.PrepShortLayout | src/core/uBitAddr.py:129-134 | alphanumeric text already laid out as a full line of colmax characters, a newline and a shorter line is left unchanged |
| Text.RepreppingShortIsStable | src/core/uBitAddr.py:129-134 | for alphanumeric text shorter than 2*colmax, preparing twice equals preparing once |
| Text.Take | src/core/uBitAddr.py:91 | Python's `s[:n]`: the prefix of length min(n, len(s)) |
| Text.RemoveAll | src/core/uBitAddr.py:88 | `replace(pat, "")` never lengthens the string |
| Text.RemoveAllNoOccurrence | src/core/uBitAddr.py:88 | where the pattern does not occur, `replace` changes nothing |
| Text.RemoveAllFirstOccurrence | src/core/uBitAddr.py:88 | `replace` deletes the first occurrence of a nonempty pattern, keeps the text before it and continues after it; with `RemoveAllNoOccurrence` this fixes the result for every input, and text joined by a deletion is not rescanned |
| Text.Trimmed | src/core/uBitAddr.py:87-93 | the trimmed address is at most 42 characters with `bch` and 34 without; without `bch` it is the first min(34, len) characters; the key is the first min(51, len) characters in both cases |
| Text.CashAddressTrim | src/core/uBitAddr.py:87-89 | with `bch`, a "bitcoincash:"-prefixed string with no further prefix trims to the first 42 characters after the prefix |
| UBitAddrCore.UBitAddr.constructor | src/core/uBitAddr.py:39-44 | the four fields hold the arguments, defaulting to display output, CRNG entropy, BTC/BCH and legacy addresses |
| UBitAddrCore.UBitAddr.PrepData | src/core/uBitAddr.py:124-136 | fails with ZeroDivisionError iff colmax is 0 and the input has two or more characters; otherwise returns the loop's accumulator, whose characters are alphanumeric or newlines, whose newline deletion is the filtered input, and whose newline count is the number of break positions |
| UBitAddrCore.UBitAddr.GetEntropyStr | src/core/uBitAddr.py:65-70 | returns the CRNG sample iff the entropy source is the CRNG, and raises otherwise |
| UBitAddrCore.UBitAddr.GenerateAddressPrivkey | src/core/uBitAddr.py:73-95 | fails iff the entropy source is not the CRNG; currency LTC selects the LTC call and any other value selects `get_address` with the `bch` flag; either result is trimmed by the `bch` flag, with width bounds 42/34 and 51 |
| UBitAddrCore.UBitAddr.DisplayAddressPrivkeyAsWritten | src/core/uBitAddr.py:150-159 | round k shows "Address:\n" and "Private Key (WIF):\n" followed by the strings prepared k times over, because the loop writes each prepared string back |
| UBitAddrCore.UBitAddr.DisplayAddressPrivkey | src/core/uBitAddr.py:150-159 | corrected loop: every round shows the two screens of the strings prepared once |
| UBitAddrCore.DisplayDriftsAsWritten | src/core/uBitAddr.py:150-159 | as written, an alphanumeric string of at least 40 characters is shown differently in round two than in round one |
| UBitAddrCore.DisplayStableWhenShort | src/core/uBitAddr.py:150-159 | as written, an alphanumeric string shorter than 40 characters, such as a 34-character legacy address, is shown the same in every round |

## Left out

- The primitives `sha256_Raw`, `ripemd160`, `ecdsa_get_public_key65`, `b58enc` and `cash_addr_encode` are uninterpreted functions with length contracts. They are not defined by these files.
- `b58enc`'s in/out length argument (`&ADDRESS_LENGTH`, `&PRIVKEY_WIF_LENGTH`) and its return value are not modelled. The same goes for the constants 40 and 70. No length of the encoded text is promised.
- The caller-supplied `address`/`privkey` buffers are not modelled: the modelled helpers return strings. The 70-byte binding buffers, their NUL terminators and the garbage after them are also left out. That garbage is what the trimming removes.
- src/module/shared-bindings/bitaddr/__init__.c (MicroPython argument and tuple marshalling) is not part of this model. The Python side sees the module as the record `BitAddrModule` of two functions.
- `init_random32`'s generator and the random numbers the EC code draws are left out. Only the seed and the order of events are recorded.
- No range check on the private key scalar is modelled, because the code performs none.
- The LTC, DGB and Ethereum derivations are left out. `get_address_ltc` has no C implementation and is not registered by the binding, so it is an opaque function here.
- UBitAddrCore.UBitAddr.GenerateAddressPrivkey: it assumes a module that provides `get_address_ltc`. With the binding as shipped, the attribute lookup at src/core/uBitAddr.py:76 raises `AttributeError` before either entropy call. The program's own entry line selects LTC. The model does not capture this failure, and its "fails iff the entropy source is not the CRNG" holds only for a module that has the function.
- `generate_and_output`, `print_address_privkey`, the serial `print`s, the program entry lines and `DISPLAY_INTERVAL` with `time.sleep` are hardware and console I/O, not modelled.
- The LCD is not modelled. The display methods return the screens each round shows.
- The display loop runs forever in the source. The model runs `rounds` rounds, given as a parameter.
- `os.urandom(32)` and its `str(...)` conversion are left out. The entropy samples are parameters of `GetEntropyStr` and `GenerateAddressPrivkey`.
- UBitAddrCore.UBitAddr.PrepData: its result is tied to `Prepped`. The layout by input windows is stated about `Prepped` in `Text.PreppedIsLines` rather than repeated in the method's ensures.
- Text.Trimmed: in the `bch` case its own contract states only the width bound. The exact result for a CashAddr string is stated in `Text.CashAddressTrim`.
- Text.RemoveAll: its contract states only that the string does not grow. What it deletes is stated in `Text.RemoveAllNoOccurrence` and `Text.RemoveAllFirstOccurrence`.

## Findings

| source | as written | input that shows it | evidently intended | confidence | as-written member | corrected member |
|---|---|---|---|---|---|---|
| src/core/uBitAddr.py:150-159 | every round runs `address = prep_data(address, cols)` and `privkey = prep_data(privkey, cols)`, so it prepares the text the previous round already prepared | a 42-character CashAddr payload or a 51-character WIF key, any alphanumeric string of at least 40 characters: round 1 shows the 40th input character at output index 40, round 2 shows a newline there and the line layout shifts | prepare each string once and show the same two screens every round | not executed | UBitAddrCore.UBitAddr.DisplayAddressPrivkeyAsWritten, UBitAddrCore.DisplayDriftsAsWritten | UBitAddrCore.UBitAddr.DisplayAddressPrivkey |
