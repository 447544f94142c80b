/**
  The `uBitAddr` application class: it asks the BitAddr module for an
  address and a private key, trims what comes back, and lays the strings out
  for a 20-column character LCD.

  The BitAddr module is seen from Python as a record of two functions, and
  `os.urandom` as the samples passed in; the LCD, the printer, `print` and
  `time.sleep` are not modelled.
*/
module UBitAddrCore {
  import opened Wrappers
  import opened Text

  /** The exceptions the modelled code can raise. */
  datatype PyError = NoEntropySource | ZeroDivisionError

  /** The `bitaddr` extension module as the application calls it. */
  datatype BitAddrModule = BitAddrModule(
    getAddress: (string, string, bool) -> (string, string),
    getAddressLtc: (string, string) -> (string, string))

  /** The width of the character LCD the application writes to. */
  const LCD_COLS := 20

  /** The two LCD screens of one display round. */
  function Screens(address: string, privkey: string): (string, string)
  {
    ("Address:\n" + address, "Private Key (WIF):\n" + privkey)
  }

  /** `prep_data` with the LCD width, applied `n` times in a row. */
  function Reprepped(s: string, n: nat): string
  {
    if n == 0 then s else PrepText(Reprepped(s, n - 1), LCD_COLS)
  }

  /** What the first `n` rounds of a display loop show, round i showing `screen(i)`. */
  function Rounds<T>(screen: nat -> T, n: nat): seq<T>
  {
    if n == 0 then [] else Rounds(screen, n - 1) + [screen(n)]
  }

  lemma {:induction false} RoundsAt<T>(screen: nat -> T, n: nat)
    ensures |Rounds(screen, n)| == n
    ensures forall k :: 0 <= k < n ==> Rounds(screen, n)[k] == screen(k + 1)
  {
    if n > 0 {
      RoundsAt(screen, n - 1);
    }
  }

  /** Round i of the display loop as written shows the strings prepared i times. */
  function ScreenAsWritten(address: string, privkey: string): nat -> (string, string)
  {
    (i: nat) => Screens(Reprepped(address, i), Reprepped(privkey, i))
  }

  class UBitAddr {
    static const OUTPUT_DISPLAY := 0
    static const OUTPUT_PRINTER := 1
    static const OUTPUT_SERIAL := 2
    static const ENTROPY_CRNG := 0
    static const BTCBCH := 0
    static const LTC := 1

    const output: int
    const entropySource: int
    const currency: int
    const bch: bool

    constructor (output: int := OUTPUT_DISPLAY, entropySource: int := ENTROPY_CRNG,
                 currency: int := BTCBCH, bch: bool := false)
      ensures this.output == output && this.entropySource == entropySource
      ensures this.currency == currency && this.bch == bch
    {
      this.output := output;
      this.entropySource := entropySource;
      this.currency := currency;
      this.bch := bch;
    }

    /**
      `prep_data`: keep the alphabet characters of `data` and emit a newline
      before every input position that is a nonzero multiple of `colmax`.
      Python evaluates `i % colmax` only for i != 0, so a zero width fails
      exactly when the input has two or more characters.
    */
    method PrepData(data: string, colmax: int) returns (r: Result<string, PyError>)
      ensures r.Failure? <==> colmax == 0 && |data| > 1
      ensures r.Failure? ==> r.error == ZeroDivisionError
      ensures r.Success? ==> r.value == Prepped(data, colmax, |data|)
      ensures r.Success? ==> forall i :: 0 <= i < |r.value| ==> r.value[i] in ALPHABET || r.value[i] == '\n'
      ensures r.Success? ==> DeleteNewlines(r.value) == Filter(data)
      ensures r.Success? ==> CountNewlines(r.value) == |BreakPositions(|data|, colmax)|
    {
      var prepped := "";
      for i := 0 to |data|
        invariant colmax == 0 ==> i <= 1
        invariant prepped == Prepped(data, colmax, i)
      {
        if i != 0 {
          if colmax == 0 {
            return Failure(ZeroDivisionError);
          }
          if i % colmax == 0 {
            prepped := prepped + "\n";
          }
        }
        AppendEmpty(Prepped(data, colmax, i));
        assert prepped == Prepped(data, colmax, i) + Break(i, colmax);
        InAlphabet(data[i]);
        if data[i] in ALPHABET {
          prepped := prepped + [data[i]];
        }
        AppendEmpty(Prepped(data, colmax, i) + Break(i, colmax));
      }
      PreppedCharacters(data, colmax, |data|);
      PreppedDeleteNewlines(data, colmax, |data|);
      PreppedNewlineCount(data, colmax, |data|);
      assert data[..|data|] == data;
      r := Success(prepped);
    }

    /** `get_entropy_str`: the CRNG sample, or an exception for any other source. */
    method GetEntropyStr(sample: string) returns (r: Result<string, PyError>)
      ensures entropySource == ENTROPY_CRNG <==> r.Success?
      ensures r.Success? ==> r.value == sample
      ensures r.Failure? ==> r.error == NoEntropySource
    {
      if entropySource == ENTROPY_CRNG {
        r := Success(sample);
      } else {
        r := Failure(NoEntropySource);
      }
    }

    /**
      `generate_address_privkey`: the LTC call for `currency == LTC`, the
      BTC/BCH call with the `bch` flag otherwise, then the trimming, which
      follows `bch` whatever the currency.
    */
    method GenerateAddressPrivkey(lib: BitAddrModule, sample1: string, sample2: string)
      returns (r: Result<(string, string), PyError>)
      ensures r.Failure? <==> entropySource != ENTROPY_CRNG
      ensures r.Failure? ==> r.error == NoEntropySource
      ensures r.Success? && currency == LTC ==>
                r.value == Trimmed(bch, lib.getAddressLtc(sample1, sample2).0, lib.getAddressLtc(sample1, sample2).1)
      ensures r.Success? && currency != LTC ==>
                r.value == Trimmed(bch, lib.getAddress(sample1, sample2, bch).0, lib.getAddress(sample1, sample2, bch).1)
      ensures r.Success? ==> |r.value.0| <= (if bch then CASH_ADDRESS_WIDTH else ADDRESS_WIDTH)
      ensures r.Success? ==> |r.value.1| <= PRIVKEY_WIDTH
    {
      var e1 := GetEntropyStr(sample1);
      if e1.Failure? {
        return Failure(e1.error);
      }
      var e2 := GetEntropyStr(sample2);
      var address, privkey;
      if currency == LTC {
        address, privkey := lib.getAddressLtc(e1.value, e2.value).0, lib.getAddressLtc(e1.value, e2.value).1;
      } else {
        address, privkey := lib.getAddress(e1.value, e2.value, bch).0, lib.getAddress(e1.value, e2.value, bch).1;
      }
      if bch {
        address := RemoveAll(address, CASH_PREFIX);
        address := Take(address, CASH_ADDRESS_WIDTH);
      } else {
        address := Take(address, ADDRESS_WIDTH);
      }
      privkey := Take(privkey, PRIVKEY_WIDTH);
      r := Success((address, privkey));
    }

    /**
      The screens of `display_address_privkey` for its first `rounds` rounds,
      as written: each round prepares the string the previous round left in
      `address` and `privkey`.
    */
    method DisplayAddressPrivkeyAsWritten(address: string, privkey: string, rounds: nat)
      returns (screens: seq<(string, string)>)
      ensures screens == Rounds(ScreenAsWritten(address, privkey), rounds)
      ensures |screens| == rounds
      ensures forall k :: 0 <= k < rounds ==> screens[k] == ScreenAsWritten(address, privkey)(k + 1)
    {
      var shownAddress, shownPrivkey := address, privkey;
      screens := [];
      for k := 0 to rounds
        invariant shownAddress == Reprepped(address, k) && shownPrivkey == Reprepped(privkey, k)
        invariant screens == Rounds(ScreenAsWritten(address, privkey), k)
      {
        var a := PrepData(shownAddress, LCD_COLS);
        shownAddress := a.value;
        var p := PrepData(shownPrivkey, LCD_COLS);
        shownPrivkey := p.value;
        screens := screens + [Screens(shownAddress, shownPrivkey)];
      }
      RoundsAt(ScreenAsWritten(address, privkey), rounds);
    }

    /**
      `display_address_privkey` with the layout computed once, so that every
      round shows the same two screens.
    */
    method DisplayAddressPrivkey(address: string, privkey: string, rounds: nat)
      returns (screens: seq<(string, string)>)
      ensures |screens| == rounds
      ensures forall k :: 0 <= k < rounds ==>
                screens[k] == Screens(PrepText(address, LCD_COLS), PrepText(privkey, LCD_COLS))
    {
      var a := PrepData(address, LCD_COLS);
      var p := PrepData(privkey, LCD_COLS);
      var screen := Screens(a.value, p.value);
      screens := [];
      for k := 0 to rounds
        invariant |screens| == k
        invariant forall j :: 0 <= j < k ==> screens[j] == screen
      {
        screens := screens + [screen];
      }
    }
  }

  /**
    As written, an alphanumeric string of at least two LCD lines (a CashAddr
    of 42 characters, a WIF key of 51) is shown differently in the second
    round than in the first.
  */
  lemma DisplayDriftsAsWritten(s: string)
    requires AllAlnum(s) && |s| >= 2 * LCD_COLS
    ensures Reprepped(s, 2) != Reprepped(s, 1)
    ensures |Reprepped(s, 1)| > 2 * LCD_COLS && |Reprepped(s, 2)| > 2 * LCD_COLS
    ensures Reprepped(s, 1)[2 * LCD_COLS] == s[2 * LCD_COLS - 1]
    ensures Reprepped(s, 2)[2 * LCD_COLS] == '\n'
  {
    RepreppingMovesBreak(s, LCD_COLS);
  }

  /**
    A string shorter than two LCD lines (a legacy address of 34 characters)
    is shown the same in every round, even as written.
  */
  lemma {:induction false} DisplayStableWhenShort(s: string, n: nat)
    requires AllAlnum(s) && |s| < 2 * LCD_COLS && n >= 1
    ensures Reprepped(s, n) == Reprepped(s, 1)
  {
    if n > 1 {
      DisplayStableWhenShort(s, n - 1);
      RepreppingShortIsStable(s, LCD_COLS);
    }
  }
}
