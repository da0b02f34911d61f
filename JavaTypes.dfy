/** Fixed-width Java integers. The modelled code only copies them, so no arithmetic is defined. */
module JavaTypes {

  newtype int32 = x: int | -0x8000_0000 <= x < 0x8000_0000

  newtype int64 = x: int | -0x8000_0000_0000_0000 <= x < 0x8000_0000_0000_0000
}
